/**
 * The monitoring graph: its nodes, the edges between them, and the driver that
 * runs a state from the entry node until End. The effects the nodes perform
 * come from an environment indexed by the number of the node execution.
 */
module Workflow {
  import opened Wrappers
  import opened PyJson
  import LeetCode
  import opened Monitoring

  datatype Node = FetchInfo | Decide | GenSubject | GenBody | Send | UpdateTime | End

  /**
   * The outside world, one answer per node execution: the client's response,
   * the generated body, whether the mailer succeeded, and the clock (seconds).
   */
  datatype Env = Env(
    fetch: nat -> LeetCode.Response,
    generate: nat -> string,
    deliver: nat -> bool,
    clock: nat -> int)

  /** How a run ends: at End, or stopped by the recursion limit. */
  datatype RunResult = RunResult(final: MonitoringState, mails: seq<Mail>, halted: bool)

  /** The number of node executions a run may take before the graph gives up. */
  const RecursionLimit: nat := 25

  /** The edges of the graph. */
  function Next(n: Node, s: MonitoringState): Node {
    match n
    case FetchInfo => if s.status == Error || !HasTitle(s) then End else Decide
    case Decide => if s.shouldSend then GenSubject else End
    case GenSubject => GenBody
    case GenBody => Send
    case Send => UpdateTime
    case UpdateTime => if IsSolved(s) then End else FetchInfo
    case End => End
  }

  /** Each node entered, by the node it comes from and the state that node left. */
  lemma Predecessors(n: Node, s: MonitoringState)
    ensures Next(n, s) == Decide <==> n == FetchInfo && s.status != Error && HasTitle(s)
    ensures Next(n, s) == GenSubject <==> n == Decide && s.shouldSend
    ensures Next(n, s) == GenBody <==> n == GenSubject
    ensures Next(n, s) == Send <==> n == GenBody
    ensures Next(n, s) == UpdateTime <==> n == Send
    ensures Next(n, s) == FetchInfo <==> n == UpdateTime && !IsSolved(s)
    ensures Next(n, s) == End <==>
      || n == End
      || (n == FetchInfo && (s.status == Error || !HasTitle(s)))
      || (n == Decide && !s.shouldSend)
      || (n == UpdateTime && IsSolved(s))
  {
  }

  /** Execute node `n` as the `step`-th node of the run. */
  function Apply(n: Node, s: MonitoringState, env: Env, step: nat): (r: MonitoringState)
    ensures r.status == s.status || r.status == Open || r.status == Error
    ensures n != FetchInfo ==> r.status == s.status
    ensures n != UpdateTime ==> r.lastEmailTime == s.lastEmailTime
  {
    match n
    case FetchInfo => FetchNode(s, LeetCode.GetDailyQuestion(env.fetch(step)))
    case Decide => DecideNode(s, env.clock(step))
    case GenSubject => SubjectNode(s)
    case GenBody => BodyNode(s, env.generate(step))
    case Send => SendNode(s, env.deliver(step))
    case UpdateTime => UpdateTimeNode(s, env.clock(step))
    case End => s
  }

  /** The mail a node hands to the mailer, if any. */
  function Sent(n: Node, s: MonitoringState): seq<Mail> {
    if n == Send then [Outgoing(s)] else []
  }

  /** Run from node `n` in state `s`, with `fuel` node executions left. */
  function Run(n: Node, s: MonitoringState, env: Env, step: nat, fuel: nat): RunResult
    decreases fuel
  {
    if n == End then RunResult(s, [], true)
    else if fuel == 0 then RunResult(s, [], false)
    else
      var s' := Apply(n, s, env, step);
      var rest := Run(Next(n, s'), s', env, step + 1, fuel - 1);
      rest.(mails := Sent(n, s) + rest.mails)
  }

  /**
   * The compiled graph's invoke: start at FetchInfo and follow the edges,
   * merging each node's update into the state, until End or the limit.
   */
  method Invoke(init: MonitoringState, env: Env, limit: nat) returns (r: RunResult)
    ensures r == Run(FetchInfo, init, env, 0, limit)
  {
    var node := FetchInfo;
    var state := init;
    var step: nat := 0;
    var mails: seq<Mail> := [];
    while node != End && step < limit
      invariant step <= limit
      invariant Run(FetchInfo, init, env, 0, limit) == Resume(node, state, env, step, limit - step, mails)
      decreases limit - step
    {
      ResumeStep(node, state, env, step, limit - step, mails);
      var next := Apply(node, state, env, step);
      mails := mails + Sent(node, state);
      node, state, step := Next(node, next), next, step + 1;
    }
    r := RunResult(state, mails, node == End);
  }

  /** The run from node `n`, after the mails `sent` so far were handed over. */
  ghost function Resume(n: Node, s: MonitoringState, env: Env, step: nat, fuel: nat, sent: seq<Mail>): (r: RunResult)
    ensures n == End || fuel == 0 ==> r == RunResult(s, sent, n == End)
  {
    var rest := Run(n, s, env, step, fuel);
    rest.(mails := sent + rest.mails)
  }

  /** One iteration of the driver loop leaves the resumed run unchanged. */
  lemma ResumeStep(n: Node, s: MonitoringState, env: Env, step: nat, fuel: nat, sent: seq<Mail>)
    requires n != End && fuel > 0
    ensures Resume(n, s, env, step, fuel, sent)
         == Resume(Next(n, Apply(n, s, env, step)), Apply(n, s, env, step), env, step + 1, fuel - 1, sent + Sent(n, s))
  {
    var s' := Apply(n, s, env, step);
    var rest := Run(Next(n, s'), s', env, step + 1, fuel - 1);
    RunStep(n, s, env, step, fuel);
    assert sent + (Sent(n, s) + rest.mails) == (sent + Sent(n, s)) + rest.mails;
  }

  /**
   * The clock advances by less than the cooldown between any two readings
   * numbered below `limit`. This includes readings at node executions a short
   * run never reaches; those are otherwise unconstrained inputs.
   */
  predicate ClockWithinCooldown(env: Env, limit: nat) {
    forall i: nat, j: nat :: i < j < limit ==> env.clock(j) - env.clock(i) < Cooldown
  }

  /** No node writes "solved", so a run that does not start solved never ends solved. */
  lemma {:induction false} NeverSolved(n: Node, s: MonitoringState, env: Env, step: nat, fuel: nat)
    requires !IsSolved(s)
    ensures !IsSolved(Run(n, s, env, step, fuel).final)
    decreases fuel
  {
    if n != End && fuel > 0 {
      var s' := Apply(n, s, env, step);
      NeverSolved(Next(n, s'), s', env, step + 1, fuel - 1);
    }
  }

  /** A send is followed by the timestamp node whatever the mailer answered. */
  lemma FailedSendStillStamped(s: MonitoringState, env: Env, step: nat)
    ensures Next(Send, Apply(Send, s, env, step)) == UpdateTime
    ensures Apply(UpdateTime, Apply(Send, s, env, step), env, step + 1).lastEmailTime == Some(env.clock(step + 1))
    ensures Apply(Send, s, env, step).emailSent == Some(env.deliver(step))
  {
  }

  /**
   * A second pass entered with a recent timestamp fetches, decides against
   * sending, and ends.
   */
  lemma {:induction false} SecondPassSendsNothing(s: MonitoringState, env: Env, step: nat, fuel: nat)
    requires s.lastEmailTime.Some?
    requires fuel >= 2 ==> env.clock(step + 1) - s.lastEmailTime.value < Cooldown
    ensures Run(FetchInfo, s, env, step, fuel).mails == []
    ensures fuel >= 2 ==> Run(FetchInfo, s, env, step, fuel).halted
  {
    if fuel > 0 {
      var s1 := Apply(FetchInfo, s, env, step);
      var n1 := Next(FetchInfo, s1);
      if n1 != End && fuel > 1 {
        assert n1 == Decide && s1.status == Open;
        var s2 := Apply(Decide, s1, env, step + 1);
        assert !s2.shouldSend;
        assert Run(Decide, s1, env, step + 1, fuel - 1) == Run(End, s2, env, step + 2, fuel - 2);
      }
    }
  }

  /**
   * One sending pass, entered after a decision to send: the mail carries the subject
   * template and the generated body, and afterwards the state holds that
   * subject and body, the mailer's answer and the time of the timestamp node.
   */
  lemma SendCycle(s: MonitoringState, env: Env, step: nat)
    ensures var s3 := Apply(GenBody, Apply(GenSubject, s, env, step), env, step + 1);
      && Outgoing(s3) == Mail(SubjectLine(s.title, s.difficulty), env.generate(step + 1))
      && Apply(UpdateTime, Apply(Send, s3, env, step + 2), env, step + 3)
         == s.(subject := Some(SubjectLine(s.title, s.difficulty)),
               body := Some(env.generate(step + 1)),
               emailSent := Some(env.deliver(step + 2)),
               lastEmailTime := Some(env.clock(step + 3)))
  {
  }

  /** The `step`-th node execution, if it is a fetch, gets a record with a truthy title. */
  predicate FetchesTitledRecord(env: Env, step: nat) {
    var fetched := LeetCode.GetDailyQuestion(env.fetch(step));
    fetched.0.Some? && Truthy(fetched.0.value.title)
  }

  /**
   * The cooldown is what stops the loop: a second pass whose fetch succeeds
   * with a title, at least two hours after the last email, sends again.
   */
  lemma {:induction false} SecondPassSendsAgain(s: MonitoringState, env: Env, step: nat, fuel: nat)
    requires s.lastEmailTime.Some?
    requires FetchesTitledRecord(env, step)
    requires env.clock(step + 1) - s.lastEmailTime.value >= Cooldown
    requires fuel >= 5
    ensures Run(FetchInfo, s, env, step, fuel).mails != []
  {
    var s1 := Apply(FetchInfo, s, env, step);
    RunStep(FetchInfo, s, env, step, fuel);
    assert Next(FetchInfo, s1) == Decide;
    var s2 := Apply(Decide, s1, env, step + 1);
    RunStep(Decide, s1, env, step + 1, fuel - 1);
    var s3 := Apply(GenSubject, s2, env, step + 2);
    RunStep(GenSubject, s2, env, step + 2, fuel - 2);
    var s4 := Apply(GenBody, s3, env, step + 3);
    RunStep(GenBody, s3, env, step + 3, fuel - 3);
    RunStep(Send, s4, env, step + 4, fuel - 4);
  }

  /** One node execution, as `Run` takes it. */
  lemma RunStep(n: Node, s: MonitoringState, env: Env, step: nat, fuel: nat)
    requires n != End && fuel > 0
    ensures var rest := Run(Next(n, Apply(n, s, env, step)), Apply(n, s, env, step), env, step + 1, fuel - 1);
      Run(n, s, env, step, fuel) == rest.(mails := Sent(n, s) + rest.mails)
  {
  }

  /** From the send node: one mail, the timestamp, then a second pass that sends nothing. */
  lemma {:induction false} SendThenSecondPass(s: MonitoringState, env: Env, step: nat, fuel: nat)
    requires fuel >= 4 ==> env.clock(step + 3) - env.clock(step + 1) < Cooldown
    ensures |Run(Send, s, env, step, fuel).mails| <= 1
    ensures fuel > 0 ==> |Run(Send, s, env, step, fuel).mails| == 1
    ensures fuel >= 4 ==> Run(Send, s, env, step, fuel).halted
  {
    if fuel > 0 {
      var s' := Apply(Send, s, env, step);
      RunStep(Send, s, env, step, fuel);
      if fuel > 1 {
        var s'' := Apply(UpdateTime, s', env, step + 1);
        RunStep(UpdateTime, s', env, step + 1, fuel - 1);
        assert s''.lastEmailTime == Some(env.clock(step + 1));
        if !IsSolved(s'') {
          SecondPassSendsNothing(s'', env, step + 2, fuel - 2);
        }
      }
    }
  }

  /**
   * The first pass from an opened question with no timestamp: the decision is
   * to send, then subject and body, then the send node.
   */
  lemma {:induction false} FirstPassSendsOne(s: MonitoringState, env: Env, step: nat, fuel: nat)
    requires s.status == Open && s.lastEmailTime.None?
    requires fuel >= 7 ==> env.clock(step + 6) - env.clock(step + 4) < Cooldown
    ensures |Run(Decide, s, env, step, fuel).mails| <= 1
    ensures fuel >= 4 ==> |Run(Decide, s, env, step, fuel).mails| == 1
    ensures fuel >= 7 ==> Run(Decide, s, env, step, fuel).halted
  {
    if fuel > 0 {
      var s2 := Apply(Decide, s, env, step);
      RunStep(Decide, s, env, step, fuel);
      assert Next(Decide, s2) == GenSubject;
      ComposeThenSend(s2, env, step + 1, fuel - 1);
    }
  }

  /** Subject and body composition lead straight to the send node. */
  lemma {:induction false} ComposeThenSend(s: MonitoringState, env: Env, step: nat, fuel: nat)
    requires fuel >= 6 ==> env.clock(step + 5) - env.clock(step + 3) < Cooldown
    ensures |Run(GenSubject, s, env, step, fuel).mails| <= 1
    ensures fuel >= 3 ==> |Run(GenSubject, s, env, step, fuel).mails| == 1
    ensures fuel >= 6 ==> Run(GenSubject, s, env, step, fuel).halted
  {
    if fuel > 0 {
      var s3 := Apply(GenSubject, s, env, step);
      RunStep(GenSubject, s, env, step, fuel);
      if fuel > 1 {
        var s4 := Apply(GenBody, s3, env, step + 1);
        RunStep(GenBody, s3, env, step + 1, fuel - 1);
        SendThenSecondPass(s4, env, step + 2, fuel - 2);
      }
    }
  }

  /**
   * From the initial state, a run whose clock advances by less than two hours
   * hands at most one mail to the mailer, and ends within eight node executions.
   */
  lemma {:induction false} AtMostOneEmail(env: Env, limit: nat)
    requires ClockWithinCooldown(env, limit)
    ensures |Run(FetchInfo, Initial(), env, 0, limit).mails| <= 1
    ensures limit >= 8 ==> Run(FetchInfo, Initial(), env, 0, limit).halted
  {
    if limit > 0 {
      var s1 := Apply(FetchInfo, Initial(), env, 0);
      RunStep(FetchInfo, Initial(), env, 0, limit);
      if Next(FetchInfo, s1) == Decide {
        if limit > 7 {
          assert env.clock(7) - env.clock(5) < Cooldown;
        }
        FirstPassSendsOne(s1, env, 1, limit - 1);
      }
    }
  }

  /**
   * From the initial state, a run whose first fetch gets a record with a title
   * and whose clock advances by less than two hours hands exactly one mail to
   * the mailer, once it may execute the five nodes up to the send.
   */
  lemma {:induction false} ExactlyOneEmail(env: Env, limit: nat)
    requires ClockWithinCooldown(env, limit)
    requires FetchesTitledRecord(env, 0)
    requires limit >= 5
    ensures |Run(FetchInfo, Initial(), env, 0, limit).mails| == 1
  {
    var s1 := Apply(FetchInfo, Initial(), env, 0);
    RunStep(FetchInfo, Initial(), env, 0, limit);
    assert Next(FetchInfo, s1) == Decide;
    if limit > 7 {
      assert env.clock(7) - env.clock(5) < Cooldown;
    }
    FirstPassSendsOne(s1, env, 1, limit - 1);
  }

  /** `run_monitoring_workflow`: one invocation of the graph from the initial state. */
  method RunMonitoringWorkflow(env: Env) returns (r: RunResult)
    ensures r == Run(FetchInfo, Initial(), env, 0, RecursionLimit)
    ensures ClockWithinCooldown(env, RecursionLimit) ==> |r.mails| <= 1 && r.halted
    ensures ClockWithinCooldown(env, RecursionLimit) && FetchesTitledRecord(env, 0) ==> |r.mails| == 1
  {
    r := Invoke(Initial(), env, RecursionLimit);
    if ClockWithinCooldown(env, RecursionLimit) {
      AtMostOneEmail(env, RecursionLimit);
      if FetchesTitledRecord(env, 0) {
        ExactlyOneEmail(env, RecursionLimit);
      }
    }
  }

  /**
   * A first run on the "Two Sum" response: the question opens, the first
   * decision sends, and the subject reads "LeetCode: Two Sum (Easy)".
   */
  lemma TwoSumFirstRun(now: int)
    ensures var s1 := FetchNode(Initial(), LeetCode.GetDailyQuestion(LeetCode.Decoded(LeetCode.TwoSumResponse())));
      && s1.status == Open
      && Next(FetchInfo, s1) == Decide
      && DecideNode(s1, now).shouldSend
      && SubjectNode(DecideNode(s1, now)).subject == Some("LeetCode: Two Sum (Easy)")
  {
    LeetCode.TwoSumExtracted();
    FirstRunOn(LeetCode.TwoSumRecord(), now);
  }

  /** A first run on a fetched "Two Sum"/"Easy" record. */
  lemma FirstRunOn(q: LeetCode.Question, now: int)
    requires q.title == JStr("Two Sum") && q.difficulty == JStr("Easy")
    ensures var s1 := FetchNode(Initial(), (Some(q), None));
      && s1.status == Open
      && Next(FetchInfo, s1) == Decide
      && DecideNode(s1, now).shouldSend
      && SubjectNode(DecideNode(s1, now)).subject == Some("LeetCode: Two Sum (Easy)")
  {
    var s1 := FetchNode(Initial(), (Some(q), None));
    assert s1.title == Some(JStr("Two Sum")) && s1.difficulty == Some(JStr("Easy"));
    var s2 := DecideNode(s1, now);
    assert SubjectLine(s2.title, s2.difficulty) == "LeetCode: Two Sum (Easy)";
  }
}
