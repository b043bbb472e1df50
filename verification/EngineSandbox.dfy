/** The dispatcher's permits are what keeps a sandbox pipe to one user at a time: the engine's history
    and the pipe as one machine. */
module EngineSandbox {
  import opened Prelude
  import opened EngineModel
  import H = EngineHistory
  import L = PluginLifecycle
  import S = SandboxProtocol

  /** Either the history goes on by one mark, or parent or child of the pipe take a step.  A completed
      run has made its call on this pipe, or made none. */
  datatype Move = Mark(called: bool) | Pipe(step: S.Step)

  /** How much of the history has happened, the runs of the plugin that have made no call, those whose
      call has returned, and the pipe. */
  datatype Joint = Joint(at: nat, waiting: nat, returned: nat, pair: S.Pair)

  predicate Completes(m: EngineModel.Mark, q: string) {
    m.Completed? && m.plugin == q
  }

  predicate Calls(step: S.Step) {
    step.Begin? || step.BeginFails?
  }

  /** A call is made only by a run that is launched and has made none, and a run that called completes
      only when its call has returned. */
  predicate Enabled(log: seq<EngineModel.Mark>, q: string, j: Joint, move: Move) {
    match move
    case Mark(called) =>
      j.at < |log| && (Completes(log[j.at], q) ==> if called then j.returned > 0 else j.waiting > 0)
    case Pipe(step) => Calls(step) ==> j.waiting > 0
  }

  lemma FramesStep(s: S.Pair, step: S.Step)
    ensures var t := S.Next(s, step);
            && s.nextCall <= t.nextCall
            && t.nextCall <= s.nextCall + (if Calls(step) then 1 else 0)
            && |t.frames| <= |s.frames| + (t.nextCall - s.nextCall)
  {
  }

  /** A new process stops the pipe of the old one. */
  function After(log: seq<EngineModel.Mark>, q: string, j: Joint, move: Move): Joint
    requires Enabled(log, q, j, move)
  {
    match move
    case Mark(called) =>
      var k := j.(at := j.at + 1);
      var m := log[j.at];
      if m == Launched(q) then k.(waiting := j.waiting + 1)
      else if Completes(m, q) then (if called then k.(returned := j.returned - 1) else k.(waiting := j.waiting - 1))
      else if m == Rebooted then k.(pair := S.Next(j.pair, S.Stop))
      else k
    case Pipe(step) =>
      FramesStep(j.pair, step);
      var t := S.Next(j.pair, step);
      var begun := t.nextCall - j.pair.nextCall;
      Joint(j.at, j.waiting - begun, j.returned + (|j.pair.frames| + begun - |t.frames|), t)
  }

  /** Every move is enabled, and no waiting child is abandoned. */
  ghost predicate JointRun(log: seq<EngineModel.Mark>, q: string, j: Joint, moves: seq<Move>)
    decreases |moves|
  {
    moves == [] ||
    (Enabled(log, q, j, moves[0])
     && (moves[0].Pipe? ==> !S.Abandons(j.pair, moves[0].step))
     && JointRun(log, q, After(log, q, j, moves[0]), moves[1..]))
  }

  ghost function Final(log: seq<EngineModel.Mark>, q: string, j: Joint, moves: seq<Move>): Joint
    requires JointRun(log, q, j, moves)
    decreases |moves|
  {
    if moves == [] then j else Final(log, q, After(log, q, j, moves[0]), moves[1..])
  }

  /** Every open run of the plugin has its call before it, in progress or behind it. */
  ghost predicate Accounted(log: seq<EngineModel.Mark>, q: string, j: Joint) {
    j.at <= |log| && j.waiting + |j.pair.frames| + j.returned == H.Open(log[..j.at], q)
  }

  lemma MoveAccounted(log: seq<EngineModel.Mark>, q: string, j: Joint, move: Move)
    requires Accounted(log, q, j) && Enabled(log, q, j, move)
    ensures Accounted(log, q, After(log, q, j, move))
  {
    match move
    case Mark(_) =>
      assert log[..j.at + 1] == log[..j.at] + [log[j.at]];
      H.OpenStep(log[..j.at], log[j.at], q);
    case Pipe(step) => FramesStep(j.pair, step);
  }

  /** With at most one open run, a move keeps parent and child in step: a call finds no other. */
  lemma MoveKeepsStep(log: seq<EngineModel.Mark>, q: string, j: Joint, move: Move)
    requires Accounted(log, q, j) && Enabled(log, q, j, move) && H.Open(log[..j.at], q) <= 1
    requires S.InStep(j.pair) && (move.Pipe? ==> !S.Abandons(j.pair, move.step))
    ensures S.InStep(After(log, q, j, move).pair)
  {
    hide S.InStep, S.Next;
    match move
    case Mark(_) => S.StaysInStepIff(j.pair, S.Stop);
    case Pipe(step) => S.StaysInStepIff(j.pair, step);
  }

  lemma {:induction false} JointKeepsStep(log: seq<EngineModel.Mark>, q: string, j: Joint, moves: seq<Move>)
    requires Accounted(log, q, j) && S.InStep(j.pair) && JointRun(log, q, j, moves)
    requires forall k :: 0 <= k <= |log| ==> H.Open(log[..k], q) <= 1
    ensures S.InStep(Final(log, q, j, moves).pair)
    decreases |moves|
  {
    hide S.InStep, After, Enabled;
    if moves != [] {
      MoveAccounted(log, q, j, moves[0]);
      MoveKeepsStep(log, q, j, moves[0]);
      JointKeepsStep(log, q, After(log, q, j, moves[0]), moves[1..]);
    }
  }

  /** In every run of engine commands, events that re-enter the engine included, whose installs do not
      fail after the tree swap: if plugin `q` never has more than one permit, its pipe never has more
      than one user, every answer from it is that of its own call, and whenever no call is in progress
      and the child lives, every gateway request was answered exactly once and in order and the pipe is
      empty, as long as no waiting child is abandoned. */
  lemma AnswersInEngineRuns(code: Code, e: Engine, commands: seq<Command>, q: string, pair: S.Pair, moves: seq<Move>)
    requires L.GovernedInv(e.loader) && H.AllSafe(commands) && H.RuntimeSound(e, q) && e.log == []
    requires H.MostPermits(code, e, commands, q) <= 1
    requires S.InStep(pair) && pair.frames == []
    requires JointRun(ExecuteAll(code, e, commands).log, q, Joint(0, 0, 0, pair), moves)
    ensures var t := Final(ExecuteAll(code, e, commands).log, q, Joint(0, 0, 0, pair), moves).pair;
            && |t.frames| <= 1
            && (forall o :: o in t.outcomes && o.reply.Answer? ==> o.reply.from == Some(o.call))
            && (t.status.Up? && t.frames == [] && !t.child.Exiting? && !t.child.Exited? ==>
                  t.child == S.Reading && t.toChild == [] && t.toParent == [] && S.AllAnswered(t.asked, t.answered))
  {
    hide L.GovernedInv, S.Next, JointRun, Final;
    var log, j := ExecuteAll(code, e, commands).log, Joint(0, 0, 0, pair);
    H.OpenRunsWithinPermits(code, e, commands, q);
    assert log[..0] == [];
    JointKeepsStep(log, q, j, moves);
    S.EveryAnswerIsItsOwn(Final(log, q, j, moves).pair, []);
  }
}
