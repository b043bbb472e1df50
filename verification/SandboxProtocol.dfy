/** The parent and the child of one sandbox: a ready handshake, then for each call one action, any
    number of gateway requests each with its response, and one result, over two FIFO channels.

    The messages carry no correlation: the child takes whatever arrives next as the response it waits
    for, and the parent takes the next message that is not a gateway request as the result of its
    call.  The tags in the messages here are the model's, and no step looks at them. */
module SandboxProtocol {
  import opened Prelude

  // ---------- State ----------

  datatype ToChild = Action(call: nat) | Response(request: nat)

  /** `Death` is the lifecycle error a child sends when its code raises out of the worker loop. */
  datatype ToParent = Ready | Request(request: nat) | Result(call: Option<nat>) | Death(call: Option<nat>)

  datatype Child =
    | Booting
    | Reading
    | Running(call: nat)
    | Awaiting(call: nat, request: nat)
    | Exiting
    | Exited

  datatype Phase = Receiving | Handling(request: nat)

  /** One call of `_execute_sub_process` in progress. */
  datatype Frame = Frame(call: nat, phase: Phase)

  datatype Reply = Answer(from: Option<nat>) | TimedOut | NotRunning | Broken

  datatype Outcome = Outcome(call: nat, reply: Reply)

  datatype Status = Down | Starting | Up

  datatype Pair = Pair(
    status: Status,
    frames: seq<Frame>,
    child: Child,
    toChild: seq<ToChild>,
    toParent: seq<ToParent>,
    // history
    nextCall: nat,
    nextRequest: nat,
    outcomes: seq<Outcome>,
    asked: seq<nat>,
    answered: seq<Option<nat>>)

  function Fresh(): Pair {
    Pair(Down, [], Exited, [], [], 0, 0, [], [], [])
  }

  // ---------- Steps ----------

  datatype Step =
    | Launch
    | FinishStart
    | StartTimeout
    | Begin
    | BeginFails
    | Receive(frame: nat)
    | ReceiveFails(frame: nat)
    | Respond(frame: nat)
    | RespondFails(frame: nat)
    | Timeout(frame: nat)
    | Stop
    | ChildReady
    | ChildTakes
    | ChildAsks
    | ChildFinishes
    | ChildDies
    | ChildKilled

  /** `stop`: the process is gone and the channel closed. */
  function Stopped(s: Pair): Pair {
    s.(status := Down, child := Exited, toChild := [], toParent := [])
  }

  function Ends(s: Pair, k: nat, reply: Reply): Pair
    requires k < |s.frames|
  {
    s.(frames := s.frames[..k] + s.frames[k + 1..], outcomes := s.outcomes + [Outcome(s.frames[k].call, reply)])
  }

  /** A call that ends before it reaches the channel. */
  function Refused(s: Pair, reply: Reply): Pair {
    s.(nextCall := s.nextCall + 1, outcomes := s.outcomes + [Outcome(s.nextCall, reply)])
  }

  /** One pass through the receive loop; the parent blocks while there is nothing to read. */
  function Received(s: Pair, k: nat): Pair
    requires k < |s.frames|
  {
    if s.status.Down? then Ends(s, k, Broken)
    else if s.toParent == [] then (if s.child.Exited? then Ends(s, k, Broken) else s)
    else
      var t := s.(toParent := s.toParent[1..]);
      match s.toParent[0]
      case Request(r) => t.(frames := t.frames[k := Frame(t.frames[k].call, Handling(r))])
      case Result(c) => Ends(t, k, Answer(c))
      case Death(c) => Ends(t, k, Answer(c))
      case Ready => Ends(t, k, Answer(None))
  }

  /** What the child does with the next message. */
  function Taken(s: Pair): Pair
    requires s.toChild != []
  {
    var m, t := s.toChild[0], s.(toChild := s.toChild[1..]);
    match s.child
    case Reading =>
      (match m
       case Action(c) => t.(child := Running(c))
       // "unknown sandbox action"
       case Response(_) => t.(toParent := t.toParent + [Result(None)]))
    case Awaiting(c, r) =>
      t.(child := Running(c), answered := t.answered + [if m.Response? then Some(m.request) else None])
    case _ => s
  }

  predicate InPhase(s: Pair, k: nat, receiving: bool) {
    k < |s.frames| && (s.frames[k].phase.Receiving? <==> receiving)
  }

  /** A step that is not enabled changes nothing. */
  function Next(s: Pair, step: Step): Pair {
    match step
    case Launch =>
      if s.status.Down? && s.frames == []
      then s.(status := Starting, child := Booting, toChild := [], toParent := [], asked := [], answered := []) else s
    case FinishStart =>
      if !s.status.Starting? || s.toParent == [] then s
      else if s.toParent[0].Ready? then s.(status := Up, toParent := s.toParent[1..]) else Stopped(s)
    case StartTimeout => if s.status.Starting? && s.toParent == [] then Stopped(s) else s
    case Begin =>
      if s.status.Starting? then s
      else if s.status.Down? || s.child.Exited? then Refused(s, NotRunning)
      else s.(nextCall := s.nextCall + 1, frames := s.frames + [Frame(s.nextCall, Receiving)],
              toChild := s.toChild + [Action(s.nextCall)])
    // the action cannot be serialised, or is too large
    case BeginFails =>
      if !s.status.Up? || s.child.Exited? then s else Refused(s, Broken)
    case Receive(k) => if InPhase(s, k, true) then Received(s, k) else s
    // the message read is malformed
    case ReceiveFails(k) =>
      if InPhase(s, k, true) && s.status.Up? && s.toParent != []
      then Ends(s.(toParent := s.toParent[1..]), k, Broken) else s
    case Respond(k) =>
      if !InPhase(s, k, false) then s
      else if !s.status.Up? || s.child.Exited? then Ends(s, k, Broken)
      else s.(frames := s.frames[k := Frame(s.frames[k].call, Receiving)],
              toChild := s.toChild + [Response(s.frames[k].phase.request)])
    // the response cannot be serialised, is too large, or its audit record cannot be written
    case RespondFails(k) => if InPhase(s, k, false) && s.status.Up? then Ends(s, k, Broken) else s
    case Timeout(k) =>
      if InPhase(s, k, true) && s.status.Up? && s.toParent == [] then Ends(Stopped(s), k, TimedOut) else s
    case Stop => Stopped(s)
    case ChildReady => if s.child.Booting? then s.(child := Reading, toParent := s.toParent + [Ready]) else s
    case ChildTakes => if s.toChild != [] then Taken(s) else s
    case ChildAsks =>
      if s.child.Running?
      then s.(child := Awaiting(s.child.call, s.nextRequest), toParent := s.toParent + [Request(s.nextRequest)],
              nextRequest := s.nextRequest + 1, asked := s.asked + [s.nextRequest]) else s
    case ChildFinishes =>
      if s.child.Running? then s.(child := Reading, toParent := s.toParent + [Result(Some(s.child.call))]) else s
    case ChildDies =>
      if s.child.Running? then s.(child := Exiting, toParent := s.toParent + [Death(Some(s.child.call))])
      else if s.child.Booting? then s.(child := Exiting, toParent := s.toParent + [Death(None)]) else s
    case ChildKilled => s.(child := Exited)
  }

  function Run(s: Pair, steps: seq<Step>): Pair
    decreases |steps|
  {
    if steps == [] then s else Run(Next(s, steps[0]), steps[1..])
  }

  // ---------- The two sides in step ----------

  /** Every answer that was returned is the answer of that very call. */
  ghost predicate Faithful(s: Pair) {
    && (forall o :: o in s.outcomes && o.reply.Answer? ==> o.reply.from == Some(o.call))
    && (forall f :: f in s.frames ==> f.call < s.nextCall)
  }

  /** The requests are answered exactly once, in the order they were made. */
  ghost predicate AllAnswered(asked: seq<nat>, answered: seq<Option<nat>>) {
    |answered| == |asked| && forall i :: 0 <= i < |asked| ==> answered[i] == Some(asked[i])
  }

  ghost predicate AllButLast(asked: seq<nat>, answered: seq<Option<nat>>, last: nat) {
    asked != [] && asked[|asked| - 1] == last && AllAnswered(asked[..|asked| - 1], answered)
  }

  /** The child is gone or going: what it left behind belongs to the current call. */
  ghost predicate Remains(toParent: seq<ToParent>, call: nat) {
    toParent == [] || (|toParent| == 1 && (toParent[0].Result? || toParent[0].Death? ==> toParent[0].call == Some(call))
                       && !toParent[0].Ready?)
  }

  ghost predicate InStepReceiving(s: Pair, call: nat) {
    match s.child
    case Booting => false
    case Reading =>
      && AllAnswered(s.asked, s.answered)
      && ((s.toChild == [Action(call)] && s.toParent == []) || (s.toChild == [] && s.toParent == [Result(Some(call))]))
    case Running(c) =>
      c == call && s.toChild == [] && s.toParent == [] && AllAnswered(s.asked, s.answered)
    case Awaiting(c, r) =>
      && c == call && AllButLast(s.asked, s.answered, r)
      && ((s.toChild == [] && s.toParent == [Request(r)]) || (s.toChild == [Response(r)] && s.toParent == []))
    case Exiting => s.toParent == [] || s.toParent == [Death(Some(call))]
    case Exited => Remains(s.toParent, call)
  }

  ghost predicate InStepHandling(s: Pair, call: nat, request: nat) {
    match s.child
    case Awaiting(c, r) =>
      c == call && r == request && s.toChild == [] && s.toParent == [] && AllButLast(s.asked, s.answered, r)
    case Exited => s.toParent == []
    case _ => false
  }

  ghost predicate InStepIdle(s: Pair) {
    && s.toParent == []
    && (s.child.Exiting? || s.child.Exited?
        || (s.child.Reading? && s.toChild == [] && AllAnswered(s.asked, s.answered)))
  }

  ghost predicate InStepStarting(s: Pair) {
    && s.toChild == [] && s.asked == [] && s.answered == []
    && match s.child
       case Booting => s.toParent == []
       case Reading => s.toParent == [Ready]
       case Exiting => s.toParent == [Death(None)]
       case Exited => s.toParent == [] || s.toParent == [Ready] || s.toParent == [Death(None)]
       case _ => false
  }

  /** At most one call is in progress, and channels and child are where that call left them. */
  ghost predicate InStep(s: Pair) {
    && |s.frames| <= 1
    && Faithful(s)
    && match s.status
       case Down => s.child.Exited? && s.toParent == [] && s.toChild == []
       case Starting => s.frames == [] && InStepStarting(s)
       case Up =>
         if s.frames == [] then InStepIdle(s)
         else match s.frames[0].phase
           case Receiving => InStepReceiving(s, s.frames[0].call)
           case Handling(r) => InStepHandling(s, s.frames[0].call, r)
  }

  /** The parent gives up a call with an error of its own while the child still awaits the response. */
  ghost predicate Abandons(s: Pair, step: Step) {
    && s.status.Up? && s.child.Awaiting? && |s.frames| == 1
    && ((step == RespondFails(0) && s.frames[0].phase.Handling?)
        || (step == ReceiveFails(0) && s.frames[0].phase.Receiving? && s.toParent != []))
  }

  /** A call begins while another is in progress and the child is alive. */
  ghost predicate Overlaps(s: Pair, step: Step) {
    step.Begin? && s.status.Up? && s.frames != [] && !s.child.Exited?
  }

  lemma FreshInStep()
    ensures InStep(Fresh())
  {
  }

  lemma ReceivingKeepsStep(s: Pair, step: Step)
    requires InStep(s) && !Abandons(s, step)
    requires step.Receive? || step.ReceiveFails?
    ensures InStep(Next(s, step))
  {
  }

  lemma RespondingKeepsStep(s: Pair, step: Step)
    requires InStep(s) && !Abandons(s, step)
    requires step.Respond? || step.RespondFails?
    ensures InStep(Next(s, step))
  {
  }

  lemma CallsKeepStep(s: Pair, step: Step)
    requires InStep(s) && !Overlaps(s, step)
    requires step.Begin? || step.BeginFails? || step.Timeout? || step.Stop? || step.Launch? || step.FinishStart? || step.StartTimeout?
    ensures InStep(Next(s, step))
  {
  }

  lemma ChildKeepsStep(s: Pair, step: Step)
    requires InStep(s)
    requires step.ChildReady? || step.ChildTakes? || step.ChildAsks? || step.ChildFinishes? || step.ChildDies? || step.ChildKilled?
    ensures InStep(Next(s, step))
  {
    if step.ChildAsks? && s.child.Running? {
      assert (s.asked + [s.nextRequest])[..|s.asked|] == s.asked;
    }
  }

  /** A step keeps the two sides in step exactly if it neither abandons a waiting child nor begins a
      call beside another: timeouts, stops, deaths and errors elsewhere do no harm. */
  lemma StaysInStepIff(s: Pair, step: Step)
    requires InStep(s)
    ensures InStep(Next(s, step)) <==> !Abandons(s, step) && !Overlaps(s, step)
  {
    if !Abandons(s, step) && !Overlaps(s, step) {
      if step.Receive? || step.ReceiveFails? {
        ReceivingKeepsStep(s, step);
      } else if step.Respond? || step.RespondFails? {
        RespondingKeepsStep(s, step);
      } else if step.ChildReady? || step.ChildTakes? || step.ChildAsks? || step.ChildFinishes? || step.ChildDies? || step.ChildKilled? {
        ChildKeepsStep(s, step);
      } else {
        CallsKeepStep(s, step);
      }
    }
  }

  ghost predicate NeverAbandons(s: Pair, steps: seq<Step>)
    decreases |steps|
  {
    steps == [] || (!Abandons(s, steps[0]) && NeverAbandons(Next(s, steps[0]), steps[1..]))
  }

  /** At no moment is more than one call in progress. */
  ghost predicate OneUser(s: Pair, steps: seq<Step>)
    decreases |steps|
  {
    |s.frames| <= 1 && (steps == [] || OneUser(Next(s, steps[0]), steps[1..]))
  }

  /** Over every run with one user at a time in which no waiting child is abandoned: every answer
      returned is that of its own call, and whenever no call is in progress and the child lives, every
      gateway request was answered exactly once and in order, both channels are empty and the child is
      back at its action read. */
  lemma {:induction false} EveryAnswerIsItsOwn(s: Pair, steps: seq<Step>)
    requires InStep(s) && NeverAbandons(s, steps) && OneUser(s, steps)
    ensures InStep(Run(s, steps))
    ensures var t := Run(s, steps);
            && (forall o :: o in t.outcomes && o.reply.Answer? ==> o.reply.from == Some(o.call))
            && (t.status.Up? && t.frames == [] && !t.child.Exiting? && !t.child.Exited? ==>
                  t.child == Reading && t.toChild == [] && t.toParent == [] && AllAnswered(t.asked, t.answered))
    decreases |steps|
  {
    if steps != [] {
      assert OneUser(Next(s, steps[0]), steps[1..]);
      assert !Overlaps(s, steps[0]);
      StaysInStepIff(s, steps[0]);
      EveryAnswerIsItsOwn(Next(s, steps[0]), steps[1..]);
    }
  }

  /** The two sides never both wait: while a call is in progress, the parent or the child can move. */
  lemma NoDeadlock(s: Pair)
    requires InStep(s) && s.status.Up? && s.frames != []
    ensures exists step :: Productive(step) && Next(s, step) != s
  {
    if s.frames[0].phase.Handling? {
      assert Productive(Respond(0)) && Next(s, Respond(0)).frames != s.frames;
    } else if s.toParent != [] {
      assert Productive(Receive(0)) && |Next(s, Receive(0)).toParent| < |s.toParent|;
    } else {
      var step := if s.child.Exited? then Receive(0) else if s.child.Exiting? then ChildKilled
                  else if s.child.Running? then ChildFinishes else ChildTakes;
      assert Productive(step) && Next(s, step) != s;
    }
  }

  predicate Productive(step: Step) {
    || step.Receive? || step.Respond? || step.ChildTakes? || step.ChildFinishes? || step.ChildKilled?
  }

  // ---------- Why the conditions are needed ----------

  lemma RunStep(s: Pair, steps: seq<Step>)
    requires steps != []
    ensures Run(s, steps) == Run(Next(s, steps[0]), steps[1..])
  {
  }

  /** A child that waits for a response takes the action of another call for it. */
  lemma ActionTakenForResponse(s: Pair, k: nat, call: nat)
    requires s.status.Up? && s.child.Awaiting? && s.toParent == [] && s.toChild == [Action(call)]
    requires k < |s.frames| && s.frames[k] == Frame(call, Receiving)
    ensures var t := Next(Next(Next(s, ChildTakes), ChildFinishes), Receive(k));
            t.outcomes == s.outcomes + [Outcome(call, Answer(Some(s.child.call)))]
  {
    var c := Next(s, ChildTakes);
    assert c.child == Running(s.child.call) && c.toParent == [];
    var d := Next(c, ChildFinishes);
    assert d.toParent == [Result(Some(s.child.call))] && d.frames == s.frames;
  }

  lemma BeginWhileAwaiting(s: Pair)
    requires s.status.Up? && s.child.Awaiting? && s.toParent == [] && s.toChild == []
    ensures var t := Next(Next(Next(Next(s, Begin), ChildTakes), ChildFinishes), Receive(|s.frames|));
            t.outcomes == s.outcomes + [Outcome(s.nextCall, Answer(Some(s.child.call)))]
  {
    ActionTakenForResponse(Next(s, Begin), |s.frames|, s.nextCall);
  }

  /** After a child was abandoned, the next call can return the result of the abandoned one. */
  lemma AbandonedAnswersLate(s: Pair, step: Step)
    requires InStep(s) && Abandons(s, step)
    ensures var t := Next(Next(Next(Next(Next(s, step), Begin), ChildTakes), ChildFinishes), Receive(0));
            && s.frames[0].call != s.nextCall
            && |t.outcomes| > 0
            && t.outcomes[|t.outcomes| - 1] == Outcome(s.nextCall, Answer(Some(s.frames[0].call)))
  {
    assert s.frames[0] in s.frames;
    var a := Next(s, step);
    assert a.frames == [] && a.child == s.child && a.nextCall == s.nextCall;
    hide InStep;
    BeginWhileAwaiting(a);
  }

  /** A call begun while the parent handles another's gateway request is taken by the child as the
      response, and returns the result of the first call. */
  lemma OverlapMixesAnswers(s: Pair)
    requires InStep(s) && Overlaps(s, Begin) && s.frames[0].phase.Handling?
    ensures var t := Next(Next(Next(Next(s, Begin), ChildTakes), ChildFinishes), Receive(1));
            && |t.outcomes| > 0
            && t.outcomes[|t.outcomes| - 1] == Outcome(s.nextCall, Answer(Some(s.frames[0].call)))
  {
    BeginWhileAwaiting(s);
  }

  /** From a fresh pair to the parent handling the first request of the first call. */
  const TO_FIRST_REQUEST: seq<Step> :=
    [Launch, ChildReady, FinishStart, Begin, ChildTakes, ChildAsks, Receive(0)]

  lemma {:induction false} RunAppend(s: Pair, a: seq<Step>, b: seq<Step>)
    ensures Run(s, a + b) == Run(Run(s, a), b)
    decreases |a|
  {
    if a == [] {
      assert a + b == b;
    } else {
      assert (a + b)[1..] == a[1..] + b;
      RunAppend(Next(s, a[0]), a[1..], b);
    }
  }

  lemma FirstUp() returns (s: Pair)
    ensures s == Run(Fresh(), [Launch, ChildReady, FinishStart])
    ensures s == Pair(Up, [], Reading, [], [], 0, 0, [], [], [])
  {
    s := Next(Next(Next(Fresh(), Launch), ChildReady), FinishStart);
    RunThree(Fresh(), Launch, ChildReady, FinishStart);
  }

  lemma FirstAsked(s: Pair) returns (t: Pair)
    requires s == Pair(Up, [], Reading, [], [], 0, 0, [], [], [])
    ensures t == Run(s, [Begin, ChildTakes, ChildAsks, Receive(0)])
    ensures t == Pair(Up, [Frame(0, Handling(0))], Awaiting(0, 0), [], [], 1, 1, [], [0], [])
  {
    var a := Next(Next(s, Begin), ChildTakes);
    assert a == Pair(Up, [Frame(0, Receiving)], Running(0), [], [], 1, 0, [], [], []);
    t := Next(Next(a, ChildAsks), Receive(0));
    RunFour(s, Begin, ChildTakes, ChildAsks, Receive(0));
  }

  lemma FirstRequest() returns (s: Pair)
    ensures s == Run(Fresh(), TO_FIRST_REQUEST)
    ensures s == Pair(Up, [Frame(0, Handling(0))], Awaiting(0, 0), [], [], 1, 1, [], [0], [])
    ensures InStep(s)
  {
    hide Next;
    var up := FirstUp();
    s := FirstAsked(up);
    RunAppend(Fresh(), [Launch, ChildReady, FinishStart], [Begin, ChildTakes, ChildAsks, Receive(0)]);
    assert TO_FIRST_REQUEST == [Launch, ChildReady, FinishStart] + [Begin, ChildTakes, ChildAsks, Receive(0)];
  }

  lemma RunThree(s: Pair, a: Step, b: Step, c: Step)
    ensures Run(s, [a, b, c]) == Next(Next(Next(s, a), b), c)
  {
    hide Next;
    assert [a, b, c][1..] == [b, c] && [b, c][1..] == [c] && [c][1..] == [];
    assert Run(s, [a, b, c]) == Run(Next(s, a), [b, c]) == Run(Next(Next(s, a), b), [c]);
  }

  lemma RunFour(s: Pair, a: Step, b: Step, c: Step, d: Step)
    ensures Run(s, [a, b, c, d]) == Next(Next(Next(Next(s, a), b), c), d)
  {
    hide Next;
    assert [a, b, c, d][1..] == [b, c, d];
    RunThree(Next(s, a), b, c, d);
  }

  /** Both mix-ups happen in runs from a fresh pair: the call numbered 1 returns the answer of call 0
      after an abandoned request, and beside one. */
  lemma MixUpsAreReachable()
    ensures Outcome(1, Answer(Some(0))) in
              Run(Fresh(), TO_FIRST_REQUEST + ([RespondFails(0)] + [Begin, ChildTakes, ChildFinishes, Receive(0)])).outcomes
    ensures Outcome(1, Answer(Some(0))) in
              Run(Fresh(), TO_FIRST_REQUEST + [Begin, ChildTakes, ChildFinishes, Receive(1)]).outcomes
  {
    var s := FirstRequest();
    RunAppend(Fresh(), TO_FIRST_REQUEST, [RespondFails(0)] + [Begin, ChildTakes, ChildFinishes, Receive(0)]);
    RunAppend(Fresh(), TO_FIRST_REQUEST, [Begin, ChildTakes, ChildFinishes, Receive(1)]);
    RunAppend(s, [RespondFails(0)], [Begin, ChildTakes, ChildFinishes, Receive(0)]);
    var a := Next(s, RespondFails(0));
    assert [RespondFails(0)][1..] == [] && Run(s, [RespondFails(0)]) == Run(a, []) == a;
    AbandonedAnswersLate(s, RespondFails(0));
    OverlapMixesAnswers(s);
    hide Next, InStep;
    RunFour(a, Begin, ChildTakes, ChildFinishes, Receive(0));
    RunFour(s, Begin, ChildTakes, ChildFinishes, Receive(1));
  }

  // ---------- Once timed out ----------

  lemma StoppedStep(s: Pair, step: Step)
    requires s.status.Down? && !step.Launch?
    ensures var t := Next(s, step);
            && t.status.Down?
            && t.nextCall >= s.nextCall
            && (t.outcomes == s.outcomes
                || (t.nextCall == s.nextCall + 1 && t.outcomes == s.outcomes + [Outcome(s.nextCall, NotRunning)])
                || (exists f :: f in s.frames && t.outcomes == s.outcomes + [Outcome(f.call, Broken)]))
            && (forall f :: f in t.frames ==> f in s.frames)
  {
  }

  /** An outcome after a stop: of a call begun since, or of one that was in progress. */
  ghost predicate Silent(s: Pair, o: Outcome) {
    || (o.reply == NotRunning && o.call >= s.nextCall)
    || (o.reply == Broken && exists f :: f in s.frames && f.call == o.call)
  }

  /** Whatever the child did, and for any number of users: after a stop and until the next launch,
      every call begun answers "sandbox is not running", and a call still in progress fails on the
      closed channel: a late result is never returned. */
  lemma {:induction false} StoppedStaysSilent(s: Pair, steps: seq<Step>)
    requires s.status.Down?
    requires forall i :: 0 <= i < |steps| ==> !steps[i].Launch?
    ensures Run(s, steps).status.Down? && s.outcomes <= Run(s, steps).outcomes
    ensures forall i :: |s.outcomes| <= i < |Run(s, steps).outcomes| ==> Silent(s, Run(s, steps).outcomes[i])
    decreases |steps|
  {
    if steps != [] {
      var u, t := Next(s, steps[0]), Run(s, steps);
      StoppedStep(s, steps[0]);
      StoppedStaysSilent(u, steps[1..]);
      forall i | |s.outcomes| <= i < |t.outcomes| ensures Silent(s, t.outcomes[i]) {
        if i < |u.outcomes| {
          assert t.outcomes[i] == u.outcomes[i];
        } else {
          assert Silent(u, t.outcomes[i]);
        }
      }
    }
  }

  /** A timeout stops the pair, so all of the above holds from there. */
  lemma TimeoutSilences(s: Pair, k: nat, steps: seq<Step>)
    requires InPhase(s, k, true) && s.status.Up? && s.toParent == []
    requires forall f :: f in s.frames ==> f.call < s.nextCall
    requires forall i :: 0 <= i < |steps| ==> !steps[i].Launch?
    ensures var u, t := Next(s, Timeout(k)), Run(Next(s, Timeout(k)), steps);
            && u.outcomes == s.outcomes + [Outcome(s.frames[k].call, TimedOut)]
            && u.outcomes <= t.outcomes
            && (forall i :: |u.outcomes| <= i < |t.outcomes| ==>
                  t.outcomes[i].reply == if t.outcomes[i].call >= s.nextCall then NotRunning else Broken)
  {
    var u, t := Next(s, Timeout(k)), Run(Next(s, Timeout(k)), steps);
    StoppedStaysSilent(u, steps);
    forall i | |u.outcomes| <= i < |t.outcomes|
      ensures t.outcomes[i].reply == if t.outcomes[i].call >= s.nextCall then NotRunning else Broken
    {
      assert Silent(u, t.outcomes[i]);
    }
  }
}
