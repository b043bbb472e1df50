/** The two loops of the sandbox protocol with their data: the worker's read loop and the manager's
    receive loop, and that running a plugin through both is running it in process. */
module SandboxLoops {
  import opened Prelude

  // ---------- Messages and plugin code ----------

  /** A gateway response as the plugin sees it: data, or a SandboxViolation. */
  datatype Granted = Granted(data: string) | Denied(error: string)

  datatype ActionResult = Ok(data: string) | Failed(error: string)

  /** What the manager writes: an action with its request id, a gateway response, or a shutdown. */
  datatype Incoming = Action(action: string, requestId: string) | Response(response: Granted) | Shutdown

  /** What the worker writes; a gateway request carries the current request id. */
  datatype Outgoing = Ready | Request(request: string, requestId: string) | Result(result: ActionResult) | StoppedNotice

  datatype Move = Ask(request: string) | Done(result: ActionResult)

  /** Plugin code: given the action and the responses so far, what it does next. */
  type Plugin = (string, seq<Granted>) -> Move

  /** The gateway: given all requests of the call so far, the response to the last one, or None where
      the response cannot be sent. */
  type Gateway = seq<string> -> Option<Granted>

  const UNKNOWN_ACTION := Failed("unknown sandbox action")
  const CHANNEL_CLOSED := Denied("gateway channel closed")
  const REQUEST_DENIED := Denied("gateway request denied")

  // ---------- The worker ----------

  /** Anything but a successful response reads as a refusal. */
  function ReadAsResponse(m: Incoming): Granted {
    if m.Response? then m.response else REQUEST_DENIED
  }

  /** What the worker writes from its action read on, over the rest of its input. */
  function Serve(plugin: Plugin, input: seq<Incoming>): seq<Outgoing>
    decreases |input|, 0
  {
    if input == [] then []
    else
      match input[0]
      case Shutdown => [StoppedNotice]
      case Response(_) => [Result(UNKNOWN_ACTION)] + Serve(plugin, input[1..])
      case Action(action, id) => Work(plugin, action, id, [], input[1..])
  }

  /** What it writes while running an action, with the responses so far. */
  function Work(plugin: Plugin, action: string, id: string, got: seq<Granted>, input: seq<Incoming>): seq<Outgoing>
    decreases |input|, 1
  {
    match plugin(action, got)
    case Done(result) => [Result(result)] + Serve(plugin, input)
    case Ask(request) =>
      [Request(request, id)] +
      if input == [] then Closing(plugin, action, got + [CHANNEL_CLOSED])
      else Work(plugin, action, id, got + [ReadAsResponse(input[0])], input[1..])
  }

  /** At the end of its input a plugin that goes on asking is cut off at the first refusal it does not
      turn into a result. */
  function Closing(plugin: Plugin, action: string, got: seq<Granted>): seq<Outgoing> {
    match plugin(action, got)
    case Done(result) => [Result(result)]
    case Ask(_) => [Result(Failed(CHANNEL_CLOSED.error))]
  }

  /** One request of a running action. */
  lemma WorkStep(plugin: Plugin, action: string, id: string, got: seq<Granted>, input: seq<Incoming>, n: nat,
                 output: seq<Outgoing>)
    requires n < |input| && plugin(action, got).Ask?
    ensures output + Work(plugin, action, id, got, input[n..]) ==
            (output + [Request(plugin(action, got).request, id)])
              + Work(plugin, action, id, got + [ReadAsResponse(input[n])], input[n + 1..])
  {
    assert input[n..][1..] == input[n + 1..];
  }

  class Worker {
    const plugin: Plugin
    const input: seq<Incoming>
    var position: nat
    var output: seq<Outgoing>
    var requestId: string

    constructor (plugin: Plugin, input: seq<Incoming>)
      ensures this.plugin == plugin && this.input == input && position == 0 && output == [Ready]
    {
      this.plugin, this.input, position, output, requestId := plugin, input, 0, [Ready], "";
    }

    /** `StdioGatewayProxy.request`. */
    method RequestGateway(request: string) returns (response: Granted)
      requires position <= |input|
      modifies this
      ensures output == old(output) + [Request(request, requestId)]
      ensures requestId == old(requestId)
      ensures old(position) == |input| ==> position == |input| && response == CHANNEL_CLOSED
      ensures old(position) < |input| ==>
                position == old(position) + 1 && response == ReadAsResponse(input[old(position)])
    {
      output := output + [Request(request, requestId)];
      if position == |input| { return CHANNEL_CLOSED; }
      response := ReadAsResponse(input[position]);
      position := position + 1;
    }

    method RunAction(action: string)
      requires position <= |input|
      modifies this
      ensures old(position) <= position <= |input|
      ensures output + Serve(plugin, input[position..]) ==
              old(output) + Work(plugin, action, old(requestId), [], input[old(position)..])
    {
      hide Work, Serve, ReadAsResponse;
      var got: seq<Granted> := [];
      while plugin(action, got).Ask? && position < |input|
        invariant old(position) <= position <= |input| && requestId == old(requestId)
        invariant output + Work(plugin, action, requestId, got, input[position..]) ==
                  old(output) + Work(plugin, action, old(requestId), [], input[old(position)..])
        decreases |input| - position
      {
        WorkStep(plugin, action, requestId, got, input, position, output);
        var response := RequestGateway(plugin(action, got).request);
        got := got + [response];
      }
      FinishAction(action, got);
    }

    method FinishAction(action: string, got: seq<Granted>)
      requires position <= |input|
      requires plugin(action, got).Ask? ==> position == |input|
      modifies this
      ensures position == old(position)
      ensures output + Serve(plugin, input[position..]) ==
              old(output) + Work(plugin, action, old(requestId), got, input[position..])
    {
      var move := plugin(action, got);
      if move.Ask? {
        var response := RequestGateway(move.request);
        move := plugin(action, got + [response]);
        if move.Ask? {
          move := Done(Failed(CHANNEL_CLOSED.error));
        }
      }
      output := output + [Result(move.result)];
    }

    /** The worker's main loop. */
    method ServeInput()
      requires position <= |input|
      modifies this
      ensures output == old(output) + Serve(plugin, input[old(position)..])
    {
      while position < |input|
        invariant position <= |input|
        invariant output + Serve(plugin, input[position..]) == old(output) + Serve(plugin, input[old(position)..])
        decreases |input| - position
      {
        var message := input[position];
        assert input[position..][1..] == input[position + 1..];
        position := position + 1;
        match message {
          case Shutdown =>
            output := output + [StoppedNotice];
            return;
          case Response(_) => output := output + [Result(UNKNOWN_ACTION)];
          case Action(action, id) =>
            requestId := id;
            RunAction(action);
        }
      }
    }
  }

  // ---------- The manager ----------

  /** One poll of the channel: nothing in time, a closed or malformed channel, or a message. */
  datatype Poll = Silence | Bad | Message(message: Outgoing)

  datatype Reply = NotRunning | TimedOut | CommunicationError | Answer(message: Outgoing)

  /** The receive loop: the reply of the call and the responses it writes. */
  function Converse(gateway: Gateway, asked: seq<string>, polls: seq<Poll>): (Reply, seq<Granted>)
    decreases |polls|
  {
    if polls == [] || polls[0].Silence? then (TimedOut, [])
    else if polls[0].Bad? then (CommunicationError, [])
    else if !polls[0].message.Request? then (Answer(polls[0].message), [])
    else
      var now := asked + [polls[0].message.request];
      match gateway(now)
      case None => (CommunicationError, [])
      case Some(response) =>
        var rest := Converse(gateway, now, polls[1..]);
        (rest.0, [response] + rest.1)
  }

  /** One gateway request of a conversation. */
  lemma ConverseStep(gateway: Gateway, asked: seq<string>, polls: seq<Poll>, n: nat, responses: seq<Granted>)
    requires n < |polls| && polls[n].Message? && polls[n].message.Request?
    ensures var now := asked + [polls[n].message.request];
            var (reply, written) := Converse(gateway, asked, polls[n..]);
            match gateway(now)
            case None => reply == CommunicationError && responses + written == responses
            case Some(response) =>
              var rest := Converse(gateway, now, polls[n + 1..]);
              && reply == rest.0
              && responses + written == (responses + [response]) + rest.1
              && Responses(responses + [response]) == Responses(responses) + [Response(response)]
  {
    assert polls[n..][1..] == polls[n + 1..];
  }

  lemma ConverseEnds(gateway: Gateway, asked: seq<string>, polls: seq<Poll>, n: nat, responses: seq<Granted>)
    requires n <= |polls| && (n == |polls| || !polls[n].Message? || !polls[n].message.Request?)
    ensures var (reply, written) := Converse(gateway, asked, polls[n..]);
            && responses + written == responses
            && reply == if n == |polls| || polls[n].Silence? then TimedOut else if polls[n].Bad? then CommunicationError
                        else Answer(polls[n].message)
  {
  }

  function Responses(responses: seq<Granted>): (r: seq<Incoming>)
    ensures |r| == |responses| && forall i :: 0 <= i < |r| ==> r[i] == Response(responses[i])
  {
    seq(|responses|, i requires 0 <= i < |responses| => Response(responses[i]))
  }

  datatype Transport = NoTransport | Pipe | Stdio

  datatype Manager = Manager(transport: Transport, process: bool, conn: bool)

  const STOPPED := Manager(NoTransport, false, false)

  /** Whether a call reaches the child; `alive` is whether the process, if any, still runs. */
  predicate Reaches(m: Manager, alive: bool) {
    if m.transport == Stdio then m.process && alive else m.process && alive && m.conn
  }

  /** One call: what the outside contributes, and the manager and reply it leads to. */
  datatype Exchange = Exchange(action: string, requestId: string, alive: bool, writable: bool, gateway: Gateway, polls: seq<Poll>)

  function Called(m: Manager, x: Exchange): (Manager, Reply) {
    if !Reaches(m, x.alive) then (m, NotRunning)
    else if !x.writable then (m, CommunicationError)
    else
      var reply := Converse(x.gateway, [], x.polls).0;
      (if reply.TimedOut? then STOPPED else m, reply)
  }

  class SandboxManager {
    var transport: Transport
    var process: bool
    var conn: bool
    var written: seq<Incoming>

    function State(): Manager
      reads this
    {
      Manager(transport, process, conn)
    }

    constructor (transport: Transport)
      ensures State() == Manager(transport, true, transport == Pipe) && written == []
    {
      this.transport, process, conn, written := transport, true, transport == Pipe, [];
    }

    method Stop()
      modifies this
      ensures State() == STOPPED && written == old(written)
    {
      process := false;
      conn := false;
      transport := NoTransport;
    }

    method ReceiveReply(gateway: Gateway, polls: seq<Poll>) returns (reply: Reply)
      modifies this
      ensures reply == Converse(gateway, [], polls).0
      ensures written == old(written) + Responses(Converse(gateway, [], polls).1)
      ensures State() == if reply.TimedOut? then STOPPED else old(State())
    {
      hide Converse;
      ghost var all := Converse(gateway, [], polls);
      var asked: seq<string> := [];
      ghost var responses: seq<Granted> := [];
      var i := 0;
      while i < |polls| && polls[i].Message? && polls[i].message.Request?
        invariant 0 <= i <= |polls|
        invariant State() == old(State()) && written == old(written) + Responses(responses)
        invariant Converse(gateway, asked, polls[i..]).0 == all.0
        invariant responses + Converse(gateway, asked, polls[i..]).1 == all.1
      {
        ConverseStep(gateway, asked, polls, i, responses);
        asked := asked + [polls[i].message.request];
        var response := gateway(asked);
        if response.None? { return CommunicationError; }
        written := written + [Response(response.value)];
        responses := responses + [response.value];
        i := i + 1;
      }
      ConverseEnds(gateway, asked, polls, i, responses);
      if i == |polls| || polls[i].Silence? {
        Stop();
        return TimedOut;
      }
      if polls[i].Bad? { return CommunicationError; }
      reply := Answer(polls[i].message);
    }

    method ExecuteSubProcess(x: Exchange) returns (reply: Reply)
      modifies this
      ensures (State(), reply) == Called(old(State()), x)
      ensures written == old(written) +
                if Reaches(old(State()), x.alive) && x.writable
                then [Action(x.action, x.requestId)] + Responses(Converse(x.gateway, [], x.polls).1) else []
    {
      if transport == Stdio {
        if !process || !x.alive { return NotRunning; }
      } else {
        if !process || !x.alive || !conn { return NotRunning; }
      }
      if !x.writable { return CommunicationError; }
      written := written + [Action(x.action, x.requestId)];
      reply := ReceiveReply(x.gateway, x.polls);
    }
  }

  function CallAll(m: Manager, calls: seq<Exchange>): seq<Reply>
    decreases |calls|
  {
    if calls == [] then [] else [Called(m, calls[0]).1] + CallAll(Called(m, calls[0]).0, calls[1..])
  }

  lemma {:induction false} StoppedAnswersNothing(calls: seq<Exchange>)
    ensures |CallAll(STOPPED, calls)| == |calls|
    ensures forall i :: 0 <= i < |calls| ==> CallAll(STOPPED, calls)[i] == NotRunning
    decreases |calls|
  {
    if calls != [] {
      StoppedAnswersNothing(calls[1..]);
    }
  }

  /** On either transport, whatever the child sends: after a call that timed out every call on the
      same manager answers "sandbox is not running". */
  lemma {:induction false} AfterTimeoutNotRunning(m: Manager, calls: seq<Exchange>, i: nat, j: nat)
    requires i < j < |calls| == |CallAll(m, calls)|
    requires CallAll(m, calls)[i] == TimedOut
    ensures CallAll(m, calls)[j] == NotRunning
    decreases |calls|
  {
    var next := Called(m, calls[0]).0;
    if i == 0 {
      StoppedAnswersNothing(calls[1..]);
      assert CallAll(m, calls)[j] == CallAll(next, calls[1..])[j - 1];
    } else {
      assert CallAll(m, calls)[i] == CallAll(next, calls[1..])[i - 1];
      assert CallAll(m, calls)[j] == CallAll(next, calls[1..])[j - 1];
      AfterTimeoutNotRunning(next, calls[1..], i - 1, j - 1);
    }
  }

  // ---------- Both loops together ----------

  /** In process: from the responses so far, the plugin makes these requests, gets these responses
      from the gateway and ends with this result. */
  ghost predicate InProcess(plugin: Plugin, gateway: Gateway, action: string, asked: seq<string>, got: seq<Granted>,
                            requests: seq<string>, responses: seq<Granted>, result: ActionResult)
    decreases |requests|
  {
    if requests == [] then responses == [] && plugin(action, got) == Done(result)
    else
      && responses != []
      && plugin(action, got) == Ask(requests[0])
      && gateway(asked + [requests[0]]) == Some(responses[0])
      && InProcess(plugin, gateway, action, asked + [requests[0]], got + [responses[0]], requests[1..], responses[1..], result)
  }

  function Requests(requests: seq<string>, id: string): (r: seq<Outgoing>)
    ensures |r| == |requests| && forall i :: 0 <= i < |r| ==> r[i] == Request(requests[i], id)
  {
    seq(|requests|, i requires 0 <= i < |requests| => Request(requests[i], id))
  }

  function Messages(output: seq<Outgoing>): (r: seq<Poll>)
    ensures |r| == |output| && forall i :: 0 <= i < |r| ==> r[i] == Message(output[i])
  {
    seq(|output|, i requires 0 <= i < |output| => Message(output[i]))
  }

  /** The worker's half. */
  lemma {:induction false} WorkFollows(plugin: Plugin, gateway: Gateway, action: string, id: string, asked: seq<string>,
                                       got: seq<Granted>, requests: seq<string>, responses: seq<Granted>,
                                       result: ActionResult, more: seq<Incoming>)
    requires InProcess(plugin, gateway, action, asked, got, requests, responses, result)
    ensures Work(plugin, action, id, got, Responses(responses) + more) ==
            Requests(requests, id) + [Result(result)] + Serve(plugin, more)
    decreases |requests|
  {
    if requests == [] {
      assert Responses(responses) + more == more;
    } else {
      var input := Responses(responses) + more;
      assert input[1..] == Responses(responses[1..]) + more;
      WorkFollows(plugin, gateway, action, id, asked + [requests[0]], got + [responses[0]], requests[1..], responses[1..],
                  result, more);
      assert Requests(requests, id) == [Request(requests[0], id)] + Requests(requests[1..], id);
    }
  }

  /** The manager's half. */
  lemma {:induction false} ConverseFollows(plugin: Plugin, gateway: Gateway, action: string, id: string, asked: seq<string>,
                                           got: seq<Granted>, requests: seq<string>, responses: seq<Granted>,
                                           result: ActionResult, more: seq<Poll>)
    requires InProcess(plugin, gateway, action, asked, got, requests, responses, result)
    ensures Converse(gateway, asked, Messages(Requests(requests, id) + [Result(result)]) + more) ==
            (Answer(Result(result)), responses)
    decreases |requests|
  {
    var output := Requests(requests, id) + [Result(result)];
    var polls := Messages(output) + more;
    if requests == [] {
      assert polls[0] == Message(Result(result));
    } else {
      assert polls[0] == Message(Request(requests[0], id));
      assert output[1..] == Requests(requests[1..], id) + [Result(result)];
      assert Messages(output)[1..] == Messages(output[1..]);
      assert polls[1..] == Messages(output[1..]) + more;
      ConverseFollows(plugin, gateway, action, id, asked + [requests[0]], got + [responses[0]], requests[1..],
                      responses[1..], result, more);
      assert [responses[0]] + responses[1..] == responses;
    }
  }

  /** Running an action through the two loops is running it in process.  Fed the action and the
      manager's responses, the worker writes exactly the requests, under the call's request id, and the
      result, and then serves the rest of its input from its action read; fed the worker's output, the
      manager gives the same responses in the same order and returns that result. */
  lemma SubProcessIsInProcess(plugin: Plugin, gateway: Gateway, action: string, id: string, requests: seq<string>,
                              responses: seq<Granted>, result: ActionResult, later: seq<Incoming>, more: seq<Poll>)
    requires InProcess(plugin, gateway, action, [], [], requests, responses, result)
    ensures var output := Requests(requests, id) + [Result(result)];
            && Serve(plugin, [Action(action, id)] + Responses(responses) + later) == output + Serve(plugin, later)
            && Converse(gateway, [], Messages(output) + more) == (Answer(Result(result)), responses)
  {
    var input := [Action(action, id)] + Responses(responses) + later;
    assert input[1..] == Responses(responses) + later;
    WorkFollows(plugin, gateway, action, id, [], [], requests, responses, result, later);
    ConverseFollows(plugin, gateway, action, id, [], [], requests, responses, result, more);
  }
}
