/** The self-evolution background task: an in-memory table of task records, the
    endpoint that creates a record, the status lookup, and the loop that drives the
    agent through analyze, implement, test, fix and evaluate phases for up to
    `max_iterations` iterations. The agent is an oracle: its n-th reply is `agent(n)`. */
module Evolve {
  import opened Json
  import Text

  datatype TaskStatus = Pending | Running | Completed | Failed | Cancelled

  datatype Phase = Analyze | Implement | Test | Fix | Evaluate

  /** The fields of `EvolveRequest` the loop reads. */
  datatype EvolveRequest = EvolveRequest(
    targetPath: string,
    objective: string,
    constraints: seq<string>,
    testCommand: Option<string>,
    maxIterations: int)

  /** The request schema bounds `max_iterations` to 1..20. */
  predicate ValidRequest(req: EvolveRequest)
  {
    1 <= req.maxIterations <= 20
  }

  /** What one agent query gives back: a response, or the exception it raised. */
  datatype Reply =
    | Answer(result: string, sessionId: string, toolsUsed: seq<string>)
    | Raised(message: string)

  /** The agent, as the sequence of its replies: `agent(n)` answers the n-th query. */
  type Agent = nat -> Reply

  /** One query the loop sends: its phase, the session it resumes, its tools and turn limit. */
  datatype Query = Query(iteration: int, phase: Phase, resume: Option<string>, tools: seq<string>, maxTurns: nat)

  /** An entry of `task["changes"]`; only the implement phase records `tools_used`. */
  datatype Change = Change(iteration: int, phase: Phase, result: string, toolsUsed: Option<seq<string>>)

  /** An entry of `task["test_results"]`. */
  datatype TestRecord = TestRecord(iteration: int, result: string)

  /** The tools each phase may use. */
  function ToolsFor(phase: Phase): seq<string>
  {
    match phase
    case Analyze => ["Read", "Glob", "Grep"]
    case Implement => ["Read", "Edit", "Write"]
    case Test => ["Bash"]
    case Fix => ["Read", "Edit", "Bash"]
    case Evaluate => ["Read"]
  }

  /** The turn limit each phase is given. */
  function TurnsFor(phase: Phase): nat
  {
    match phase
    case Analyze => 5
    case Implement => 10
    case Test => 3
    case Fix => 10
    case Evaluate => 3
  }

  function Ask(k: int, phase: Phase, resume: Option<string>): Query
  {
    Query(k, phase, resume, ToolsFor(phase), TurnsFor(phase))
  }

  const Sentinel := "OBJECTIVE_COMPLETE"

  /** A test report asks for a fix when, upper-cased, it mentions FAILED or ERROR. */
  predicate NeedsFix(report: string)
  {
    Text.Contains(Text.Upper(report), "FAILED") || Text.Contains(Text.Upper(report), "ERROR")
  }

  /** The check is case-insensitive on the report: "failed" or "error" written in any mix
      of cases triggers a fix. */
  lemma AnyCaseFailureNeedsFix(report: string, word: string)
    requires Text.Contains(report, word)
    requires Text.Upper(word) == "FAILED" || Text.Upper(word) == "ERROR"
    ensures NeedsFix(report)
  {
    Text.UpperKeepsOccurrence(report, word);
  }

  // ---------------------------------------------------------------------------
  // The loop, as a function of the agent's replies
  // ---------------------------------------------------------------------------

  /** How the loop stands: still iterating, stopped by the sentinel, or stopped by an exception. */
  datatype Outcome = Going | Met | Broke(message: string)

  /** What the loop has produced so far: the record's iteration counter, changes and test
      results, the queries sent, and how it stands. */
  datatype Progress = Progress(
    iteration: int,
    changes: seq<Change>,
    tests: seq<TestRecord>,
    queries: seq<Query>,
    outcome: Outcome)

  /** Sends query `q`: it joins the log; the agent's reply to it is `agent(|p.queries|)`. */
  function Sent(p: Progress, q: Query): Progress
  {
    p.(queries := p.queries + [q])
  }

  function Note(p: Progress, c: Change): Progress
  {
    p.(changes := p.changes + [c])
  }

  /** The evaluate phase, resuming `resume`, and the sentinel check after it. */
  function EvaluatePhase(agent: Agent, k: int, p: Progress, resume: string): Progress
  {
    var e := agent(|p.queries|);
    var p := Sent(p, Ask(k, Evaluate, Some(resume)));
    if e.Raised? then p.(outcome := Broke(e.message))
    else
      var p := Note(p, Change(k, Evaluate, e.result, None));
      if Text.Contains(e.result, Sentinel) then p.(outcome := Met) else p
  }

  /** The test phase and, when the report asks for it, the fix phase; then evaluate,
      which resumes the test session (never the fix session). */
  function TestAndEvaluate(agent: Agent, k: int, p: Progress, implementSession: string): Progress
  {
    var t := agent(|p.queries|);
    var p := Sent(p, Ask(k, Test, Some(implementSession)));
    if t.Raised? then p.(outcome := Broke(t.message))
    else
      var p := p.(tests := p.tests + [TestRecord(k, t.result)]);
      if NeedsFix(t.result) then
        var f := agent(|p.queries|);
        var p := Sent(p, Ask(k, Fix, Some(t.sessionId)));
        if f.Raised? then p.(outcome := Broke(f.message))
        else EvaluatePhase(agent, k, Note(p, Change(k, Fix, f.result, None)), t.sessionId)
      else EvaluatePhase(agent, k, p, t.sessionId)
  }

  /** Iteration `k` of the loop from a state that is still going. */
  function Iteration(req: EvolveRequest, agent: Agent, k: int, p: Progress): Progress
  {
    var p := p.(iteration := k);
    var a := agent(|p.queries|);
    var p := Sent(p, Ask(k, Analyze, None));
    if a.Raised? then p.(outcome := Broke(a.message))
    else
      var p := Note(p, Change(k, Analyze, a.result, None));
      var i := agent(|p.queries|);
      var p := Sent(p, Ask(k, Implement, Some(a.sessionId)));
      if i.Raised? then p.(outcome := Broke(i.message))
      else
        AfterImplement(req, agent, k, Note(p, Change(k, Implement, i.result, Some(i.toolsUsed))), i.sessionId)
  }

  /** The rest of an iteration once implement has answered: test (and fix) when there is
      a test command, then evaluate, which resumes the test session or else the implement one. */
  function AfterImplement(req: EvolveRequest, agent: Agent, k: int, p: Progress, implementSession: string): Progress
  {
    if Truthy(req.testCommand) then TestAndEvaluate(agent, k, p, implementSession)
    else EvaluatePhase(agent, k, p, implementSession)
  }

  /** Iterations `k`, `k + 1`, ... up to `max_iterations`, stopping early when one ends
      the loop. */
  function EvolveFrom(req: EvolveRequest, agent: Agent, k: int, p: Progress): Progress
    decreases req.maxIterations + 1 - k
  {
    if k > req.maxIterations || !p.outcome.Going? then p
    else EvolveFrom(req, agent, k + 1, Iteration(req, agent, k, p))
  }

  /** One turn of the loop. */
  lemma EvolveStep(req: EvolveRequest, agent: Agent, k: int, p: Progress)
    requires k <= req.maxIterations && p.outcome.Going?
    ensures EvolveFrom(req, agent, k, p) == EvolveFrom(req, agent, k + 1, Iteration(req, agent, k, p))
  {
  }

  /** The loop has stopped once the counter passes the limit or the outcome is settled. */
  lemma EvolveDone(req: EvolveRequest, agent: Agent, k: int, p: Progress)
    requires k > req.maxIterations || !p.outcome.Going?
    ensures EvolveFrom(req, agent, k, p) == p
  {
  }

  /** The record `start_evolution` creates, seen as a loop state. */
  const Fresh := Progress(0, [], [], [], Going)

  /** The whole loop from a freshly created record. */
  function Evolve(req: EvolveRequest, agent: Agent): Progress
  {
    EvolveFrom(req, agent, 1, Fresh)
  }

  /** The status the record ends in. */
  function FinalStatus(o: Outcome): TaskStatus
  {
    if o.Broke? then Failed else Completed
  }

  // ---------------------------------------------------------------------------
  // Properties of one iteration
  // ---------------------------------------------------------------------------

  /** The phases of a list of change records. */
  function Phases(changes: seq<Change>): (ps: seq<Phase>)
    ensures |ps| == |changes|
    ensures forall j :: 0 <= j < |changes| ==> ps[j] == changes[j].phase
  {
    seq(|changes|, j requires 0 <= j < |changes| => changes[j].phase)
  }

  lemma PhasesAppend(a: seq<Change>, b: seq<Change>)
    ensures Phases(a + b) == Phases(a) + Phases(b)
  {
    assert forall j :: 0 <= j < |a| ==> (a + b)[j] == a[j];
    assert forall j :: |a| <= j < |a + b| ==> (a + b)[j] == b[j - |a|];
  }

  /** The phases recorded after `base` in `changes`, which extends `base + head`, are
      those of `head` followed by the rest. */
  lemma PhasesAfter(base: seq<Change>, head: seq<Change>, changes: seq<Change>)
    requires |base + head| <= |changes| && changes[..|base + head|] == base + head
    ensures Phases(changes[|base|..]) == Phases(head) + Phases(changes[|base + head|..])
  {
    assert changes[|base|..] == head + changes[|base + head|..] by {
      assert changes == changes[..|base + head|] + changes[|base + head|..];
    }
    PhasesAppend(head, changes[|base + head|..]);
  }

  /** Whether iteration `k`, starting with `n` queries sent, runs the fix phase: only with a
      test command, and only when the (answered) test report asks for a fix. */
  predicate Fixes(req: EvolveRequest, agent: Agent, n: nat)
  {
    Truthy(req.testCommand) && agent(n + 2).Answer? && NeedsFix(agent(n + 2).result)
  }

  /** The phases a completed iteration records, in order. */
  function IterationPhases(fixes: bool): seq<Phase>
  {
    [Analyze, Implement] + (if fixes then [Fix] else []) + [Evaluate]
  }

  /** One iteration keeps everything recorded before it, sets the iteration counter, and
      sends between one and five queries. */
  lemma IterationKeeps(req: EvolveRequest, agent: Agent, k: int, p: Progress)
    requires p.outcome.Going?
    ensures var r := Iteration(req, agent, k, p);
            r.iteration == k &&
            p.queries <= r.queries && p.changes <= r.changes && p.tests <= r.tests &&
            |p.queries| < |r.queries| <= |p.queries| + 5
  {
    var n := |p.queries|;
    var a, i := agent(n), agent(n + 1);
    if a.Answer? && i.Answer? {
      var p3 := Progress(k, p.changes + [Change(k, Analyze, a.result, None), Change(k, Implement, i.result, Some(i.toolsUsed))],
                         p.tests, p.queries + [Ask(k, Analyze, None), Ask(k, Implement, Some(a.sessionId))], Going);
      IterationUnfold(req, agent, k, p);
      AfterImplementFacts(req, agent, k, p3, i.sessionId);
    }
  }

  /** An iteration ends by an exception exactly when the agent's last reply to it was one,
      with that reply's message; every reply before that was an answer. */
  lemma IterationReplies(req: EvolveRequest, agent: Agent, k: int, p: Progress)
    requires p.outcome.Going?
    ensures var r := Iteration(req, agent, k, p);
            (forall j :: |p.queries| <= j < |r.queries| - 1 ==> agent(j).Answer?) &&
            (r.outcome.Broke? <==> agent(|r.queries| - 1).Raised?) &&
            (r.outcome.Broke? ==> r.outcome.message == agent(|r.queries| - 1).message)
  {
    var n := |p.queries|;
    var a, i := agent(n), agent(n + 1);
    if a.Answer? && i.Answer? {
      var p3 := Progress(k, p.changes + [Change(k, Analyze, a.result, None), Change(k, Implement, i.result, Some(i.toolsUsed))],
                         p.tests, p.queries + [Ask(k, Analyze, None), Ask(k, Implement, Some(a.sessionId))], Going);
      IterationUnfold(req, agent, k, p);
      AfterImplementFacts(req, agent, k, p3, i.sessionId);
    } else if a.Answer? {
      assert Iteration(req, agent, k, p).queries == p.queries + [Ask(k, Analyze, None), Ask(k, Implement, Some(a.sessionId))];
    } else {
      assert Iteration(req, agent, k, p).queries == p.queries + [Ask(k, Analyze, None)];
    }
  }

  /** An iteration records one test exactly when there is a test command and the test
      query is reached, and none otherwise. */
  lemma IterationTests(req: EvolveRequest, agent: Agent, k: int, p: Progress)
    requires p.outcome.Going?
    ensures var r := Iteration(req, agent, k, p);
            (!Truthy(req.testCommand) ==> r.tests == p.tests) &&
            (!r.outcome.Broke? ==> |r.tests| == |p.tests| + (if Truthy(req.testCommand) then 1 else 0))
  {
    var n := |p.queries|;
    var a, i := agent(n), agent(n + 1);
    if a.Answer? && i.Answer? {
      var p3 := Progress(k, p.changes + [Change(k, Analyze, a.result, None), Change(k, Implement, i.result, Some(i.toolsUsed))],
                         p.tests, p.queries + [Ask(k, Analyze, None), Ask(k, Implement, Some(a.sessionId))], Going);
      IterationUnfold(req, agent, k, p);
      AfterImplementFacts(req, agent, k, p3, i.sessionId);
    }
  }

  /** An iteration that does not fail records analyze, implement, [fix], evaluate, with fix
      exactly when the test report asks for it. */
  lemma IterationRecords(req: EvolveRequest, agent: Agent, k: int, p: Progress)
    requires p.outcome.Going?
    ensures var r := Iteration(req, agent, k, p);
            !r.outcome.Broke? ==> Phases(r.changes[|p.changes|..]) == IterationPhases(Fixes(req, agent, |p.queries|))
  {
    var n := |p.queries|;
    var r := Iteration(req, agent, k, p);
    var a, i := agent(n), agent(n + 1);
    if a.Raised? {
      assert r.outcome.Broke?;
    } else if i.Raised? {
      assert r.outcome.Broke?;
    } else {
      var head := [Change(k, Analyze, a.result, None), Change(k, Implement, i.result, Some(i.toolsUsed))];
      var p3 := Progress(k, p.changes + head, p.tests, p.queries + [Ask(k, Analyze, None), Ask(k, Implement, Some(a.sessionId))], Going);
      IterationUnfold(req, agent, k, p);
      assert r == AfterImplement(req, agent, k, p3, i.sessionId);
      AfterImplementFacts(req, agent, k, p3, i.sessionId);
      assert |p3.queries| == n + 2;
      if !r.outcome.Broke? {
        PhasesAfter(p.changes, head, r.changes);
        assert Phases(head) == [Analyze, Implement];
      }
    }
  }

  /** An iteration that does not fail stops the loop exactly when its last record, the
      evaluate result, contains the sentinel. */
  lemma IterationStops(req: EvolveRequest, agent: Agent, k: int, p: Progress)
    requires p.outcome.Going?
    ensures var r := Iteration(req, agent, k, p);
            !r.outcome.Broke? ==>
              |r.changes| > |p.changes| && r.changes[|r.changes| - 1].phase == Evaluate &&
              (r.outcome.Met? <==> Text.Contains(r.changes[|r.changes| - 1].result, Sentinel))
  {
    var n := |p.queries|;
    var a, i := agent(n), agent(n + 1);
    if a.Answer? && i.Answer? {
      var head := [Change(k, Analyze, a.result, None), Change(k, Implement, i.result, Some(i.toolsUsed))];
      var p3 := Progress(k, p.changes + head, p.tests, p.queries + [Ask(k, Analyze, None), Ask(k, Implement, Some(a.sessionId))], Going);
      IterationUnfold(req, agent, k, p);
      AfterImplementFacts(req, agent, k, p3, i.sessionId);
    }
  }

  /** Once analyze and implement have answered, an iteration goes on with `AfterImplement`
      from the state that records both. */
  lemma IterationUnfold(req: EvolveRequest, agent: Agent, k: int, p: Progress)
    requires p.outcome.Going?
    requires agent(|p.queries|).Answer? && agent(|p.queries| + 1).Answer?
    ensures var n := |p.queries|;
            var a, i := agent(n), agent(n + 1);
            Iteration(req, agent, k, p)
            == AfterImplement(req, agent, k,
                 Progress(k, p.changes + [Change(k, Analyze, a.result, None), Change(k, Implement, i.result, Some(i.toolsUsed))],
                          p.tests, p.queries + [Ask(k, Analyze, None), Ask(k, Implement, Some(a.sessionId))], Going),
                 i.sessionId)
  {
    var n := |p.queries|;
    var a := agent(n);
    var q1 := p.queries + [Ask(k, Analyze, None)];
    assert |q1| == n + 1;
    assert q1 + [Ask(k, Implement, Some(a.sessionId))] == p.queries + [Ask(k, Analyze, None), Ask(k, Implement, Some(a.sessionId))];
    assert p.changes + [Change(k, Analyze, a.result, None)] + [Change(k, Implement, agent(n + 1).result, Some(agent(n + 1).toolsUsed))]
        == p.changes + [Change(k, Analyze, a.result, None), Change(k, Implement, agent(n + 1).result, Some(agent(n + 1).toolsUsed))];
  }

  /** `AfterImplement` combines the two ways an iteration can go on after implement. */
  lemma AfterImplementFacts(req: EvolveRequest, agent: Agent, k: int, p: Progress, implementSession: string)
    requires p.outcome.Going?
    ensures var r := AfterImplement(req, agent, k, p, implementSession);
            var n := |p.queries|;
            var fixes := Truthy(req.testCommand) && agent(n).Answer? && NeedsFix(agent(n).result);
            r.iteration == p.iteration &&
            p.queries <= r.queries && p.changes <= r.changes && p.tests <= r.tests &&
            n < |r.queries| <= n + 3 &&
            (forall j :: n <= j < |r.queries| - 1 ==> agent(j).Answer?) &&
            (r.outcome.Broke? <==> agent(|r.queries| - 1).Raised?) &&
            (r.outcome.Broke? ==> r.outcome.message == agent(|r.queries| - 1).message) &&
            (!Truthy(req.testCommand) ==> r.tests == p.tests) &&
            (!r.outcome.Broke? ==>
               Phases(r.changes[|p.changes|..]) == (if fixes then [Fix] else []) + [Evaluate] &&
               |r.tests| == |p.tests| + (if Truthy(req.testCommand) then 1 else 0) &&
               (r.outcome.Met? <==> Text.Contains(r.changes[|r.changes| - 1].result, Sentinel)))
  {
    if Truthy(req.testCommand) {
      TestAndEvaluateFacts(agent, k, p, implementSession);
    } else {
      EvaluateFacts(agent, k, p, implementSession);
      var r := AfterImplement(req, agent, k, p, implementSession);
      if !r.outcome.Broke? {
        assert r.changes[|p.changes|..] == [r.changes[|r.changes| - 1]];
      }
    }
  }

  /** The test phase, the fix phase when the report asks for it, and evaluate: between one
      and three queries, one test record unless the test query raised, and, when nothing
      raised, a fix change exactly when the report asks for it followed by an evaluate change. */
  lemma TestAndEvaluateFacts(agent: Agent, k: int, p: Progress, implementSession: string)
    requires p.outcome.Going?
    ensures var r := TestAndEvaluate(agent, k, p, implementSession);
            var n := |p.queries|;
            var fixes := agent(n).Answer? && NeedsFix(agent(n).result);
            r.iteration == p.iteration &&
            p.queries <= r.queries && p.changes <= r.changes && p.tests <= r.tests &&
            n < |r.queries| <= n + 3 &&
            (forall j :: n <= j < |r.queries| - 1 ==> agent(j).Answer?) &&
            (r.outcome.Broke? <==> agent(|r.queries| - 1).Raised?) &&
            (r.outcome.Broke? ==> r.outcome.message == agent(|r.queries| - 1).message) &&
            (!r.outcome.Broke? ==>
               Phases(r.changes[|p.changes|..]) == (if fixes then [Fix] else []) + [Evaluate] &&
               |r.tests| == |p.tests| + 1 &&
               (r.outcome.Met? <==> Text.Contains(r.changes[|r.changes| - 1].result, Sentinel)))
  {
    var n := |p.queries|;
    var r := TestAndEvaluate(agent, k, p, implementSession);
    var t := agent(n);
    var p1 := Sent(p, Ask(k, Test, Some(implementSession)));
    if t.Raised? {
      assert r == p1.(outcome := Broke(t.message));
    } else {
      var p2 := p1.(tests := p.tests + [TestRecord(k, t.result)]);
      if NeedsFix(t.result) {
        var f := agent(n + 1);
        var p3 := Sent(p2, Ask(k, Fix, Some(t.sessionId)));
        assert |p3.queries| == n + 2;
        if f.Raised? {
          assert r == p3.(outcome := Broke(f.message));
        } else {
          var p4 := Note(p3, Change(k, Fix, f.result, None));
          assert r == EvaluatePhase(agent, k, p4, t.sessionId);
          EvaluateFacts(agent, k, p4, t.sessionId);
          if !r.outcome.Broke? {
            assert r.changes[|p.changes|..] == [Change(k, Fix, f.result, None), r.changes[|r.changes| - 1]];
          }
        }
      } else {
        assert r == EvaluatePhase(agent, k, p2, t.sessionId);
        EvaluateFacts(agent, k, p2, t.sessionId);
        if !r.outcome.Broke? {
          assert r.changes[|p.changes|..] == [r.changes[|r.changes| - 1]];
        }
      }
    }
  }

  /** The evaluate phase sends one query; it records an evaluate change unless it raised,
      and stops the loop exactly when that change contains the sentinel. */
  lemma EvaluateFacts(agent: Agent, k: int, p: Progress, resume: string)
    requires p.outcome.Going?
    ensures var r := EvaluatePhase(agent, k, p, resume);
            var e := agent(|p.queries|);
            r.queries == p.queries + [Ask(k, Evaluate, Some(resume))] && r.tests == p.tests &&
            r.iteration == p.iteration &&
            (r.outcome.Broke? <==> e.Raised?) &&
            (r.outcome.Broke? ==> r.changes == p.changes && r.outcome.message == e.message) &&
            (!r.outcome.Broke? ==>
               r.changes == p.changes + [Change(k, Evaluate, e.result, None)] &&
               (r.outcome.Met? <==> Text.Contains(e.result, Sentinel)))
  {
  }

  /** An iteration that raises records no evaluate change: evaluate is recorded only once
      it has answered, and nothing is asked after it. */
  lemma IterationFailsBeforeEvaluate(req: EvolveRequest, agent: Agent, k: int, p: Progress)
    requires p.outcome.Going?
    ensures var r := Iteration(req, agent, k, p);
            r.outcome.Broke? ==> forall j :: |p.changes| <= j < |r.changes| ==> r.changes[j].phase != Evaluate
  {
    var n := |p.queries|;
    var r := Iteration(req, agent, k, p);
    var a, i := agent(n), agent(n + 1);
    if a.Answer? && i.Answer? {
      var head := [Change(k, Analyze, a.result, None), Change(k, Implement, i.result, Some(i.toolsUsed))];
      var p3 := Progress(k, p.changes + head, p.tests, p.queries + [Ask(k, Analyze, None), Ask(k, Implement, Some(a.sessionId))], Going);
      IterationUnfold(req, agent, k, p);
      if Truthy(req.testCommand) {
        var t := agent(n + 2);
        if t.Answer? && NeedsFix(t.result) && agent(n + 3).Answer? {
          assert r.outcome.Broke? ==> r.changes == p3.changes + [Change(k, Fix, agent(n + 3).result, None)];
        } else {
          assert r.outcome.Broke? ==> r.changes == p3.changes;
        }
      } else {
        assert r.outcome.Broke? ==> r.changes == p3.changes;
      }
    }
  }

  /** The change phases an iteration has recorded when the query of phase `raised` raises:
      those of the phases that answered before it (a test answer goes to the test results). */
  function FailedPhases(raised: Phase, fixes: bool): seq<Phase>
  {
    match raised
    case Analyze => []
    case Implement => [Analyze]
    case Test => [Analyze, Implement]
    case Fix => [Analyze, Implement]
    case Evaluate => [Analyze, Implement] + (if fixes then [Fix] else [])
  }

  /** Test, [fix] and evaluate when one of them raises: the test record stays unless the
      test query itself raised, and a fix change stays when evaluate raised after it. */
  lemma TestAndEvaluateFailure(agent: Agent, k: int, p: Progress, implementSession: string)
    requires p.outcome.Going?
    ensures var r := TestAndEvaluate(agent, k, p, implementSession);
            var n := |p.queries|;
            var fixes := agent(n).Answer? && NeedsFix(agent(n).result);
            (agent(n).Raised? ==> r.tests == p.tests) &&
            (agent(n).Answer? ==> r.tests == p.tests + [TestRecord(k, agent(n).result)]) &&
            (r.outcome.Broke? ==>
               |r.queries| > n && p.changes <= r.changes &&
               var raised := r.queries[|r.queries| - 1].phase;
               (raised == Test || raised == Fix || raised == Evaluate) &&
               (raised == Test <==> agent(n).Raised?) &&
               Phases(r.changes[|p.changes|..]) == (if raised == Evaluate && fixes then [Fix] else []))
  {
    var n := |p.queries|;
    var r := TestAndEvaluate(agent, k, p, implementSession);
    var t := agent(n);
    var p1 := Sent(p, Ask(k, Test, Some(implementSession)));
    if t.Raised? {
      assert r == p1.(outcome := Broke(t.message));
      assert r.changes[|p.changes|..] == [];
    } else {
      var p2 := p1.(tests := p.tests + [TestRecord(k, t.result)]);
      if NeedsFix(t.result) {
        var f := agent(n + 1);
        var p3 := Sent(p2, Ask(k, Fix, Some(t.sessionId)));
        if f.Raised? {
          assert r == p3.(outcome := Broke(f.message));
          assert r.changes[|p.changes|..] == [];
        } else {
          var p4 := Note(p3, Change(k, Fix, f.result, None));
          assert r == EvaluatePhase(agent, k, p4, t.sessionId);
          EvaluateFacts(agent, k, p4, t.sessionId);
          if r.outcome.Broke? {
            assert r.changes[|p.changes|..] == [Change(k, Fix, f.result, None)];
          }
        }
      } else {
        assert r == EvaluatePhase(agent, k, p2, t.sessionId);
        EvaluateFacts(agent, k, p2, t.sessionId);
        if r.outcome.Broke? {
          assert r.changes[|p.changes|..] == [];
        }
      }
    }
  }

  /** The rest of an iteration after implement, when it raises: the test record stays
      once the test query answered, and a fix change stays when evaluate raised after it. */
  lemma AfterImplementFailure(req: EvolveRequest, agent: Agent, k: int, p: Progress, implementSession: string)
    requires p.outcome.Going?
    ensures var r := AfterImplement(req, agent, k, p, implementSession);
            var n := |p.queries|;
            var fixes := Truthy(req.testCommand) && agent(n).Answer? && NeedsFix(agent(n).result);
            r.outcome.Broke? ==>
              |r.queries| > n && p.changes <= r.changes &&
              var raised := r.queries[|r.queries| - 1].phase;
              (raised == Test || raised == Fix || raised == Evaluate) &&
              Phases(r.changes[|p.changes|..]) == (if raised == Evaluate && fixes then [Fix] else []) &&
              r.tests == p.tests + (if (raised == Fix || raised == Evaluate) && Truthy(req.testCommand)
                                    then [TestRecord(k, agent(n).result)] else [])
  {
    var r := AfterImplement(req, agent, k, p, implementSession);
    if Truthy(req.testCommand) {
      assert r == TestAndEvaluate(agent, k, p, implementSession);
      TestAndEvaluateFailure(agent, k, p, implementSession);
    } else {
      assert r == EvaluatePhase(agent, k, p, implementSession);
      EvaluateFacts(agent, k, p, implementSession);
      if r.outcome.Broke? {
        assert r.changes[|p.changes|..] == [];
      }
    }
  }

  /** What iteration `k` from `p` leaves behind in `r` if it raises: the changes of the
      phases that answered before the raising one, and the test record once the test query
      answered. Nothing recorded earlier in the iteration is lost. */
  ghost predicate KeptOnFailure(req: EvolveRequest, agent: Agent, k: int, p: Progress, r: Progress)
  {
    var n := |p.queries|;
    r.outcome.Broke? ==>
      |r.queries| > n && p.changes <= r.changes &&
      var raised := r.queries[|r.queries| - 1].phase;
      Phases(r.changes[|p.changes|..]) == FailedPhases(raised, Fixes(req, agent, n)) &&
      ((raised == Fix || raised == Evaluate) && Truthy(req.testCommand) ==>
         agent(n + 2).Answer? && r.tests == p.tests + [TestRecord(k, agent(n + 2).result)]) &&
      (!((raised == Fix || raised == Evaluate) && Truthy(req.testCommand)) ==> r.tests == p.tests)
  }

  /** An iteration that raises keeps what its answered phases recorded. */
  lemma IterationFailureRecords(req: EvolveRequest, agent: Agent, k: int, p: Progress)
    requires p.outcome.Going?
    ensures KeptOnFailure(req, agent, k, p, Iteration(req, agent, k, p))
  {
    var n := |p.queries|;
    if agent(n).Raised? || agent(n + 1).Raised? {
      EarlyFailureRecords(req, agent, k, p);
    } else {
      LateFailureRecords(req, agent, k, p);
    }
  }

  /** Analyze or implement raised: nothing, or the analyze change, is recorded. */
  lemma EarlyFailureRecords(req: EvolveRequest, agent: Agent, k: int, p: Progress)
    requires p.outcome.Going? && (agent(|p.queries|).Raised? || agent(|p.queries| + 1).Raised?)
    ensures KeptOnFailure(req, agent, k, p, Iteration(req, agent, k, p))
  {
    var n := |p.queries|;
    var r := Iteration(req, agent, k, p);
    var a := agent(n);
    if a.Raised? {
      assert r.queries == p.queries + [Ask(k, Analyze, None)] && r.changes == p.changes && r.tests == p.tests;
      assert r.changes[|p.changes|..] == [];
    } else {
      assert r.queries == p.queries + [Ask(k, Analyze, None), Ask(k, Implement, Some(a.sessionId))];
      assert r.changes == p.changes + [Change(k, Analyze, a.result, None)] && r.tests == p.tests;
      assert r.changes[|p.changes|..] == [Change(k, Analyze, a.result, None)];
    }
  }

  /** Analyze and implement answered: their changes stay, followed by what the rest kept. */
  lemma LateFailureRecords(req: EvolveRequest, agent: Agent, k: int, p: Progress)
    requires p.outcome.Going? && agent(|p.queries|).Answer? && agent(|p.queries| + 1).Answer?
    ensures KeptOnFailure(req, agent, k, p, Iteration(req, agent, k, p))
  {
    var n := |p.queries|;
    var r := Iteration(req, agent, k, p);
    var a, i := agent(n), agent(n + 1);
    var head := [Change(k, Analyze, a.result, None), Change(k, Implement, i.result, Some(i.toolsUsed))];
    var p3 := Progress(k, p.changes + head, p.tests, p.queries + [Ask(k, Analyze, None), Ask(k, Implement, Some(a.sessionId))], Going);
    IterationUnfold(req, agent, k, p);
    assert r == AfterImplement(req, agent, k, p3, i.sessionId);
    AfterImplementFailure(req, agent, k, p3, i.sessionId);
    assert |p3.queries| == n + 2;
    if r.outcome.Broke? {
      PhasesAfter(p.changes, head, r.changes);
      assert Phases(head) == [Analyze, Implement];
      var raised := r.queries[|r.queries| - 1].phase;
      FailedAfterImplement(raised, Fixes(req, agent, n));
    }
  }

  lemma FailedAfterImplement(raised: Phase, fixes: bool)
    requires raised == Test || raised == Fix || raised == Evaluate
    ensures FailedPhases(raised, fixes) == [Analyze, Implement] + (if raised == Evaluate && fixes then [Fix] else [])
  {
  }

  /** Going from `p` to `r`, every change and test record made carries iteration `k`. */
  ghost predicate WrittenAt(p: Progress, r: Progress, k: int)
  {
    p.changes <= r.changes && p.tests <= r.tests &&
    (forall j :: |p.changes| <= j < |r.changes| ==> r.changes[j].iteration == k) &&
    (forall j :: |p.tests| <= j < |r.tests| ==> r.tests[j].iteration == k)
  }

  lemma WrittenAtTrans(p: Progress, q: Progress, r: Progress, k: int)
    requires WrittenAt(p, q, k) && WrittenAt(q, r, k)
    ensures WrittenAt(p, r, k)
  {
    forall j | |p.changes| <= j < |r.changes|
      ensures r.changes[j].iteration == k
    {
      if j < |q.changes| {
        assert r.changes[j] == q.changes[j];
      }
    }
    forall j | |p.tests| <= j < |r.tests|
      ensures r.tests[j].iteration == k
    {
      if j < |q.tests| {
        assert r.tests[j] == q.tests[j];
      }
    }
  }

  /** Every record iteration `k` makes carries `k`, in each of its phases. */
  lemma EvaluateWrittenAt(agent: Agent, k: int, p: Progress, resume: string)
    ensures WrittenAt(p, EvaluatePhase(agent, k, p, resume), k)
  {
  }

  lemma TestAndEvaluateWrittenAt(agent: Agent, k: int, p: Progress, implementSession: string)
    ensures WrittenAt(p, TestAndEvaluate(agent, k, p, implementSession), k)
  {
    var t := agent(|p.queries|);
    if t.Answer? {
      var p2 := Sent(p, Ask(k, Test, Some(implementSession))).(tests := p.tests + [TestRecord(k, t.result)]);
      assert WrittenAt(p, p2, k);
      if NeedsFix(t.result) {
        var f := agent(|p2.queries|);
        var p3 := Sent(p2, Ask(k, Fix, Some(t.sessionId)));
        if f.Answer? {
          var p4 := Note(p3, Change(k, Fix, f.result, None));
          assert WrittenAt(p2, p4, k);
          WrittenAtTrans(p, p2, p4, k);
          EvaluateWrittenAt(agent, k, p4, t.sessionId);
          WrittenAtTrans(p, p4, EvaluatePhase(agent, k, p4, t.sessionId), k);
        }
      } else {
        EvaluateWrittenAt(agent, k, p2, t.sessionId);
        WrittenAtTrans(p, p2, EvaluatePhase(agent, k, p2, t.sessionId), k);
      }
    }
  }

  lemma IterationWrittenAt(req: EvolveRequest, agent: Agent, k: int, p: Progress)
    requires p.outcome.Going?
    ensures WrittenAt(p, Iteration(req, agent, k, p), k)
  {
    var n := |p.queries|;
    var a, i := agent(n), agent(n + 1);
    if a.Raised? {
      assert Iteration(req, agent, k, p).changes == p.changes;
    } else if i.Raised? {
      assert Iteration(req, agent, k, p).changes == p.changes + [Change(k, Analyze, a.result, None)];
    } else {
      var p3 := Progress(k, p.changes + [Change(k, Analyze, a.result, None), Change(k, Implement, i.result, Some(i.toolsUsed))],
                         p.tests, p.queries + [Ask(k, Analyze, None), Ask(k, Implement, Some(a.sessionId))], Going);
      IterationUnfold(req, agent, k, p);
      assert WrittenAt(p, p3, k);
      if Truthy(req.testCommand) {
        TestAndEvaluateWrittenAt(agent, k, p3, i.sessionId);
      } else {
        EvaluateWrittenAt(agent, k, p3, i.sessionId);
      }
      WrittenAtTrans(p, p3, Iteration(req, agent, k, p), k);
    }
  }

  /** Each record carries the number of the iteration that wrote it: between 1 and the
      counter, in the order the iterations ran. */
  ghost predicate Stamped(p: Progress)
  {
    (forall j :: 0 <= j < |p.changes| ==> 1 <= p.changes[j].iteration <= p.iteration) &&
    (forall j :: 0 <= j < |p.tests| ==> 1 <= p.tests[j].iteration <= p.iteration) &&
    (forall i, j :: 0 <= i < j < |p.changes| ==> p.changes[i].iteration <= p.changes[j].iteration) &&
    (forall i, j :: 0 <= i < j < |p.tests| ==> p.tests[i].iteration <= p.tests[j].iteration)
  }

  /** An iteration numbered past the counter keeps the records stamped. */
  lemma IterationStamped(req: EvolveRequest, agent: Agent, k: int, p: Progress)
    requires p.outcome.Going? && Stamped(p) && 1 <= k && p.iteration < k
    ensures Stamped(Iteration(req, agent, k, p))
  {
    var q := Iteration(req, agent, k, p);
    IterationKeeps(req, agent, k, p);
    IterationWrittenAt(req, agent, k, p);
    forall j | 0 <= j < |q.changes|
      ensures 1 <= q.changes[j].iteration <= k
    {
      if j < |p.changes| {
        assert q.changes[j] == p.changes[j];
      }
    }
    forall j | 0 <= j < |q.tests|
      ensures 1 <= q.tests[j].iteration <= k
    {
      if j < |p.tests| {
        assert q.tests[j] == p.tests[j];
      }
    }
    forall i, j | 0 <= i < j < |q.changes|
      ensures q.changes[i].iteration <= q.changes[j].iteration
    {
      if j < |p.changes| {
        assert q.changes[i] == p.changes[i] && q.changes[j] == p.changes[j];
      } else if i < |p.changes| {
        assert q.changes[i] == p.changes[i];
      }
    }
    forall i, j | 0 <= i < j < |q.tests|
      ensures q.tests[i].iteration <= q.tests[j].iteration
    {
      if j < |p.tests| {
        assert q.tests[i] == p.tests[i] && q.tests[j] == p.tests[j];
      } else if i < |p.tests| {
        assert q.tests[i] == p.tests[i];
      }
    }
  }

  /** The loop keeps the records stamped with the iteration that wrote them. */
  lemma {:induction false} EvolveStamped(req: EvolveRequest, agent: Agent, k: int, p: Progress)
    requires Stamped(p) && 1 <= k && p.iteration < k
    ensures Stamped(EvolveFrom(req, agent, k, p))
    decreases req.maxIterations + 1 - k
  {
    if k <= req.maxIterations && p.outcome.Going? {
      var q := Iteration(req, agent, k, p);
      EvolveStep(req, agent, k, p);
      IterationStamped(req, agent, k, p);
      IterationKeeps(req, agent, k, p);
      EvolveStamped(req, agent, k + 1, q);
    } else {
      EvolveDone(req, agent, k, p);
    }
  }

  // ---------------------------------------------------------------------------
  // Properties of the whole loop
  // ---------------------------------------------------------------------------

  /** The agent answered its first `m` queries. */
  ghost predicate Answered(agent: Agent, m: int)
  {
    forall j :: 0 <= j < m ==> agent(j).Answer?
  }

  /** No evaluate record contains the sentinel. */
  predicate SentinelFree(changes: seq<Change>)
  {
    forall j :: 0 <= j < |changes| && changes[j].phase == Evaluate ==> !Text.Contains(changes[j].result, Sentinel)
  }

  /** The loop keeps every record made before `k`; the iteration counter stays within
      `max_iterations`, and a loop that neither failed nor met the objective ran all of them. */
  lemma {:induction false} EvolveKeeps(req: EvolveRequest, agent: Agent, k: int, p: Progress)
    requires p.outcome.Going? && p.iteration == k - 1 && k <= req.maxIterations + 1
    ensures var r := EvolveFrom(req, agent, k, p);
            p.queries <= r.queries && p.changes <= r.changes && p.tests <= r.tests &&
            k - 1 <= r.iteration <= req.maxIterations &&
            (k <= req.maxIterations ==> k <= r.iteration) &&
            (r.outcome.Going? ==> r.iteration == req.maxIterations)
    decreases req.maxIterations + 1 - k
  {
    if k <= req.maxIterations {
      var q := Iteration(req, agent, k, p);
      IterationKeeps(req, agent, k, p);
      if q.outcome.Going? {
        EvolveKeeps(req, agent, k + 1, q);
      }
    }
  }

  /** The replies behind a loop state: a state that has not failed had every query
      answered; a failed one had every query answered but the last, which raised the
      exception whose message it carries. */
  ghost predicate RepliesAgree(agent: Agent, p: Progress)
  {
    (!p.outcome.Broke? ==> Answered(agent, |p.queries|)) &&
    (p.outcome.Broke? ==>
       |p.queries| >= 1 && Answered(agent, |p.queries| - 1) &&
       agent(|p.queries| - 1) == Raised(p.outcome.message))
  }

  /** One iteration from a state whose queries were all answered keeps the replies in agreement. */
  lemma IterationRepliesAgree(req: EvolveRequest, agent: Agent, k: int, p: Progress)
    requires p.outcome.Going? && Answered(agent, |p.queries|)
    ensures RepliesAgree(agent, Iteration(req, agent, k, p))
  {
    var q := Iteration(req, agent, k, p);
    IterationKeeps(req, agent, k, p);
    IterationReplies(req, agent, k, p);
    assert Answered(agent, |q.queries| - 1) by {
      forall j | 0 <= j < |q.queries| - 1
        ensures agent(j).Answer?
      {
        if j < |p.queries| {
          assert 0 <= j < |p.queries|;
        }
      }
    }
  }

  /** The loop fails exactly when the agent's last reply was an exception, with its message,
      and every reply before that was an answer. */
  lemma {:induction false} EvolveReplies(req: EvolveRequest, agent: Agent, k: int, p: Progress)
    requires p.outcome.Going? && Answered(agent, |p.queries|)
    ensures RepliesAgree(agent, EvolveFrom(req, agent, k, p))
    decreases req.maxIterations + 1 - k
  {
    if k <= req.maxIterations {
      var q := Iteration(req, agent, k, p);
      IterationRepliesAgree(req, agent, k, p);
      EvolveStep(req, agent, k, p);
      if q.outcome.Going? {
        EvolveReplies(req, agent, k + 1, q);
      } else {
        EvolveDone(req, agent, k + 1, q);
      }
    } else {
      EvolveDone(req, agent, k, p);
    }
  }

  /** Without a test command every iteration that completes records exactly three changes
      and no test; with one, exactly one test record per completed iteration. */
  lemma {:induction false} EvolveCounts(req: EvolveRequest, agent: Agent, k: int, p: Progress)
    requires p.outcome.Going? && p.iteration == k - 1
    requires !Truthy(req.testCommand) ==> p.tests == [] && |p.changes| == 3 * p.iteration
    requires Truthy(req.testCommand) ==> |p.tests| == p.iteration
    ensures var r := EvolveFrom(req, agent, k, p);
            (!Truthy(req.testCommand) ==> r.tests == [] && (!r.outcome.Broke? ==> |r.changes| == 3 * r.iteration)) &&
            (Truthy(req.testCommand) && !r.outcome.Broke? ==> |r.tests| == r.iteration)
    decreases req.maxIterations + 1 - k
  {
    if k <= req.maxIterations {
      var q := Iteration(req, agent, k, p);
      IterationKeeps(req, agent, k, p);
      IterationTests(req, agent, k, p);
      IterationRecords(req, agent, k, p);
      if !q.outcome.Broke? && !Truthy(req.testCommand) {
        assert |q.changes[|p.changes|..]| == |IterationPhases(false)| == 3;
      }
      if q.outcome.Going? {
        EvolveCounts(req, agent, k + 1, q);
      }
    }
  }

  /** The loop stops at the first evaluate result that contains the sentinel: no earlier
      evaluate record contains it, and when the loop met the objective its last record is
      that evaluate result. */
  lemma {:induction false} EvolveStops(req: EvolveRequest, agent: Agent, k: int, p: Progress)
    requires p.outcome.Going? && SentinelFree(p.changes)
    ensures var r := EvolveFrom(req, agent, k, p);
            (r.outcome.Met? ==>
               |r.changes| >= 1 && r.changes[|r.changes| - 1].phase == Evaluate &&
               Text.Contains(r.changes[|r.changes| - 1].result, Sentinel) &&
               SentinelFree(r.changes[..|r.changes| - 1])) &&
            (!r.outcome.Met? ==> SentinelFree(r.changes))
    decreases req.maxIterations + 1 - k
  {
    if k <= req.maxIterations {
      var q := Iteration(req, agent, k, p);
      EvolveStep(req, agent, k, p);
      IterationSentinel(req, agent, k, p);
      if q.outcome.Going? {
        EvolveStops(req, agent, k + 1, q);
      } else {
        EvolveDone(req, agent, k + 1, q);
      }
    } else {
      EvolveDone(req, agent, k, p);
    }
  }

  /** One iteration keeps the evaluate records free of the sentinel unless it met the
      objective, and then only its own last (evaluate) record holds it. */
  lemma IterationSentinel(req: EvolveRequest, agent: Agent, k: int, p: Progress)
    requires p.outcome.Going? && SentinelFree(p.changes)
    ensures var q := Iteration(req, agent, k, p);
            (q.outcome.Met? ==>
               |q.changes| >= 1 && q.changes[|q.changes| - 1].phase == Evaluate &&
               Text.Contains(q.changes[|q.changes| - 1].result, Sentinel) &&
               SentinelFree(q.changes[..|q.changes| - 1])) &&
            (!q.outcome.Met? ==> SentinelFree(q.changes))
  {
    var q := Iteration(req, agent, k, p);
    IterationKeeps(req, agent, k, p);
    IterationStops(req, agent, k, p);
    if q.outcome.Broke? {
      IterationFailsBeforeEvaluate(req, agent, k, p);
      FreeAfterFailure(p.changes, q.changes);
    } else {
      IterationRecords(req, agent, k, p);
      FreeAfterIteration(p.changes, q.changes, Fixes(req, agent, |p.queries|));
      if q.outcome.Going? {
        FreeWhole(q.changes);
      }
    }
  }

  /** Records of an iteration that completed: only the last is an evaluate record. */
  lemma FreeAfterIteration(base: seq<Change>, changes: seq<Change>, fixes: bool)
    requires base <= changes && SentinelFree(base)
    requires Phases(changes[|base|..]) == IterationPhases(fixes)
    ensures SentinelFree(changes[..|changes| - 1])
  {
    var added := changes[|base|..];
    var front := changes[..|changes| - 1];
    forall j | 0 <= j < |front| && front[j].phase == Evaluate
      ensures !Text.Contains(front[j].result, Sentinel)
    {
      if j < |base| {
        assert front[j] == base[j];
      }
    }
  }

  /** Records of an iteration that failed: none of them is an evaluate record. */
  lemma FreeAfterFailure(base: seq<Change>, changes: seq<Change>)
    requires base <= changes && SentinelFree(base)
    requires forall j :: |base| <= j < |changes| ==> changes[j].phase != Evaluate
    ensures SentinelFree(changes)
  {
    forall j | 0 <= j < |changes| && changes[j].phase == Evaluate
      ensures !Text.Contains(changes[j].result, Sentinel)
    {
      assert changes[j] == base[j];
    }
  }

  /** Adding back a last record that does not contain the sentinel. */
  lemma FreeWhole(changes: seq<Change>)
    requires changes != [] && SentinelFree(changes[..|changes| - 1])
    requires !Text.Contains(changes[|changes| - 1].result, Sentinel)
    ensures SentinelFree(changes)
  {
    assert forall j :: 0 <= j < |changes| - 1 ==> changes[j] == changes[..|changes| - 1][j];
  }

  /** The phase whose session a phase resumes within an iteration (analyze resumes none;
      evaluate is handled apart). */
  function Resumes(phase: Phase): Phase
  {
    match phase
    case Implement => Analyze
    case Test => Implement
    case Fix => Test
    case _ => phase
  }

  /** Query `j` of the log resumes the session the loop's rules name: analyze resumes
      nothing; implement, test and fix resume the session of the query just before them
      (analyze, implement, test); evaluate resumes the test session when there is a test
      command (skipping a fix in between) and the implement session otherwise. */
  ghost predicate ChainedAt(req: EvolveRequest, agent: Agent, qs: seq<Query>, j: int)
    requires 0 <= j < |qs|
  {
    match qs[j].phase
    case Analyze => qs[j].resume.None?
    case Evaluate =>
      var m := if j >= 1 && qs[j - 1].phase == Fix then j - 2 else j - 1;
      0 <= m && qs[m].phase == (if Truthy(req.testCommand) then Test else Implement) &&
      agent(m).Answer? && qs[j].resume == Some(agent(m).sessionId)
    case _ =>
      1 <= j && qs[j - 1].phase == Resumes(qs[j].phase) &&
      agent(j - 1).Answer? && qs[j].resume == Some(agent(j - 1).sessionId)
  }

  ghost predicate Chained(req: EvolveRequest, agent: Agent, qs: seq<Query>)
  {
    forall j :: 0 <= j < |qs| ==> ChainedAt(req, agent, qs, j)
  }

  /** Sending a query that follows the rules keeps the whole log chained. */
  lemma ChainedSnoc(req: EvolveRequest, agent: Agent, qs: seq<Query>, q: Query)
    requires Chained(req, agent, qs) && ChainedAt(req, agent, qs + [q], |qs|)
    ensures Chained(req, agent, qs + [q])
  {
    forall j | 0 <= j < |qs|
      ensures ChainedAt(req, agent, qs + [q], j)
    {
      assert ChainedAt(req, agent, qs, j);
      assert (qs + [q])[j] == qs[j];
      if j >= 1 {
        assert (qs + [q])[j - 1] == qs[j - 1];
      }
      if j >= 2 {
        assert (qs + [q])[j - 2] == qs[j - 2];
      }
    }
  }

  /** Evaluate, sent when the query the rules name for it answered with `resume`'s session. */
  lemma EvaluateChains(req: EvolveRequest, agent: Agent, k: int, p: Progress, resume: string)
    requires p.outcome.Going? && Chained(req, agent, p.queries)
    requires var n := |p.queries|;
             var m := if n >= 1 && p.queries[n - 1].phase == Fix then n - 2 else n - 1;
             0 <= m && p.queries[m].phase == (if Truthy(req.testCommand) then Test else Implement) &&
             agent(m).Answer? && resume == agent(m).sessionId
    ensures Chained(req, agent, EvaluatePhase(agent, k, p, resume).queries)
  {
    var q := Ask(k, Evaluate, Some(resume));
    assert EvaluatePhase(agent, k, p, resume).queries == p.queries + [q];
    ChainedSnoc(req, agent, p.queries, q);
  }

  /** Test, fix and evaluate, sent after an answered implement query. */
  lemma TestAndEvaluateChains(req: EvolveRequest, agent: Agent, k: int, p: Progress, implementSession: string)
    requires p.outcome.Going? && Chained(req, agent, p.queries) && Truthy(req.testCommand)
    requires var n := |p.queries|;
             n >= 1 && p.queries[n - 1].phase == Implement &&
             agent(n - 1).Answer? && implementSession == agent(n - 1).sessionId
    ensures Chained(req, agent, TestAndEvaluate(agent, k, p, implementSession).queries)
  {
    var n := |p.queries|;
    var t := agent(n);
    var qt := p.queries + [Ask(k, Test, Some(implementSession))];
    ChainedSnoc(req, agent, p.queries, Ask(k, Test, Some(implementSession)));
    if t.Answer? {
      var p2 := Progress(p.iteration, p.changes, p.tests + [TestRecord(k, t.result)], qt, Going);
      if NeedsFix(t.result) {
        var qf := qt + [Ask(k, Fix, Some(t.sessionId))];
        ChainedSnoc(req, agent, qt, Ask(k, Fix, Some(t.sessionId)));
        if agent(n + 1).Answer? {
          var p4 := Progress(p.iteration, p.changes + [Change(k, Fix, agent(n + 1).result, None)], p2.tests, qf, Going);
          assert TestAndEvaluate(agent, k, p, implementSession) == EvaluatePhase(agent, k, p4, t.sessionId);
          EvaluateChains(req, agent, k, p4, t.sessionId);
        }
      } else {
        assert TestAndEvaluate(agent, k, p, implementSession) == EvaluatePhase(agent, k, p2, t.sessionId);
        EvaluateChains(req, agent, k, p2, t.sessionId);
      }
    }
  }

  /** An iteration sends its queries by the resume rules. */
  lemma IterationChains(req: EvolveRequest, agent: Agent, k: int, p: Progress)
    requires p.outcome.Going? && Chained(req, agent, p.queries)
    ensures Chained(req, agent, Iteration(req, agent, k, p).queries)
  {
    var n := |p.queries|;
    var a := agent(n);
    var qa := p.queries + [Ask(k, Analyze, None)];
    ChainedSnoc(req, agent, p.queries, Ask(k, Analyze, None));
    if a.Answer? {
      var qi := qa + [Ask(k, Implement, Some(a.sessionId))];
      ChainedSnoc(req, agent, qa, Ask(k, Implement, Some(a.sessionId)));
      assert qi == p.queries + [Ask(k, Analyze, None), Ask(k, Implement, Some(a.sessionId))];
      var i := agent(n + 1);
      if i.Answer? {
        var p3 := Progress(k, p.changes + [Change(k, Analyze, a.result, None), Change(k, Implement, i.result, Some(i.toolsUsed))],
                           p.tests, qi, Going);
        IterationUnfold(req, agent, k, p);
        if Truthy(req.testCommand) {
          TestAndEvaluateChains(req, agent, k, p3, i.sessionId);
        } else {
          EvaluateChains(req, agent, k, p3, i.sessionId);
        }
      }
    }
  }

  /** Every query the loop sends resumes the session its rules name. */
  lemma {:induction false} EvolveChains(req: EvolveRequest, agent: Agent, k: int, p: Progress)
    requires p.outcome.Going? && Chained(req, agent, p.queries)
    ensures Chained(req, agent, EvolveFrom(req, agent, k, p).queries)
    decreases req.maxIterations + 1 - k
  {
    if k <= req.maxIterations {
      IterationChains(req, agent, k, p);
      if Iteration(req, agent, k, p).outcome.Going? {
        EvolveChains(req, agent, k + 1, Iteration(req, agent, k, p));
      }
    }
  }

  /** The whole loop from a fresh record, for a request within the schema's bounds:
      - the iteration counter ends between 1 and `max_iterations`, and at `max_iterations`
        when the loop neither failed nor met the objective;
      - it fails exactly when the agent's last reply was an exception, with its message,
        all earlier replies being answers;
      - without a test command, three records and no test per completed iteration; with
        one, one test record per completed iteration;
      - it stops at the first evaluate result containing the sentinel;
      - every query resumes the session its phase's rule names;
      - every change and test record carries the number of an iteration that ran. */
  lemma EvolveFacts(req: EvolveRequest, agent: Agent)
    requires ValidRequest(req)
    ensures var r := Evolve(req, agent);
            1 <= r.iteration <= req.maxIterations &&
            (r.outcome.Going? ==> r.iteration == req.maxIterations) &&
            (!r.outcome.Broke? ==> Answered(agent, |r.queries|)) &&
            (r.outcome.Broke? ==>
               |r.queries| >= 1 && Answered(agent, |r.queries| - 1) &&
               agent(|r.queries| - 1) == Raised(r.outcome.message)) &&
            (!Truthy(req.testCommand) ==> r.tests == [] && (!r.outcome.Broke? ==> |r.changes| == 3 * r.iteration)) &&
            (Truthy(req.testCommand) && !r.outcome.Broke? ==> |r.tests| == r.iteration) &&
            (r.outcome.Met? ==>
               |r.changes| >= 1 && r.changes[|r.changes| - 1].phase == Evaluate &&
               Text.Contains(r.changes[|r.changes| - 1].result, Sentinel) &&
               SentinelFree(r.changes[..|r.changes| - 1])) &&
            (!r.outcome.Met? ==> SentinelFree(r.changes)) &&
            Chained(req, agent, r.queries) &&
            (forall j :: 0 <= j < |r.changes| ==> 1 <= r.changes[j].iteration <= r.iteration) &&
            (forall j :: 0 <= j < |r.tests| ==> 1 <= r.tests[j].iteration <= r.iteration)
  {
    var r := Evolve(req, agent);
    EvolveStamped(req, agent, 1, Fresh);
    assert Stamped(r);
    EvolveKeeps(req, agent, 1, Fresh);
    EvolveReplies(req, agent, 1, Fresh);
    EvolveCounts(req, agent, 1, Fresh);
    EvolveStops(req, agent, 1, Fresh);
    EvolveChains(req, agent, 1, Fresh);
  }

  // ---------------------------------------------------------------------------
  // The task table
  // ---------------------------------------------------------------------------

  /** One entry of `_tasks`, updated field by field while the loop runs. */
  class TaskRecord {
    var status: TaskStatus
    var currentIteration: int
    var maxIterations: int
    var objective: string
    var targetPath: string
    var changes: seq<Change>
    var testResults: seq<TestRecord>
    var error: Option<string>
    var startedAt: Option<nat>
    var completedAt: Option<nat>

    /** The record `start_evolution` stores. */
    constructor (req: EvolveRequest)
      ensures status == Pending && currentIteration == 0
      ensures maxIterations == req.maxIterations && objective == req.objective && targetPath == req.targetPath
      ensures changes == [] && testResults == []
      ensures error == None && startedAt == None && completedAt == None
    {
      status := Pending;
      currentIteration := 0;
      maxIterations := req.maxIterations;
      objective := req.objective;
      targetPath := req.targetPath;
      changes := [];
      testResults := [];
      error := None;
      startedAt := None;
      completedAt := None;
    }

    /** The loop state this record and a query log stand for. */
    function State(queries: seq<Query>, outcome: Outcome): Progress
      reads this
    {
      Progress(currentIteration, changes, testResults, queries, outcome)
    }

    /** `run_evolution`'s work on this record: marks it running, runs the loop, and records
        how it ended. Returns the queries sent to the agent, in order. */
    method Run(req: EvolveRequest, agent: Agent, startTime: nat, endTime: nat)
      returns (queries: seq<Query>)
      modifies this
      ensures var p := EvolveFrom(req, agent, 1, old(State([], Going)));
              State(queries, p.outcome) == p &&
              status == FinalStatus(p.outcome) && error == (if p.outcome.Broke? then Some(p.outcome.message) else old(error)) &&
              startedAt == Some(startTime) && completedAt == Some(endTime) &&
              maxIterations == old(maxIterations) && objective == old(objective) &&
              targetPath == old(targetPath)
    {
      status := Running;
      startedAt := Some(startTime);
      ghost var start := State([], Going);
      queries := [];
      var outcome := Going;
      var k := 1;
      while k <= req.maxIterations && outcome.Going?
        invariant EvolveFrom(req, agent, 1, start) == EvolveFrom(req, agent, k, State(queries, outcome))
        invariant status == Running && startedAt == Some(startTime)
        invariant error == old(error) && completedAt == old(completedAt)
        invariant maxIterations == old(maxIterations) && objective == old(objective)
        invariant targetPath == old(targetPath)
        decreases req.maxIterations + 1 - k
      {
        ghost var before := State(queries, outcome);
        queries, outcome := RunIteration(req, agent, k, queries);
        EvolveStep(req, agent, k, before);
        k := k + 1;
      }
      EvolveDone(req, agent, k, State(queries, outcome));
      if outcome.Broke? {
        status := Failed;
        error := Some(outcome.message);
      } else {
        status := Completed;
      }
      completedAt := Some(endTime);
    }

    /** One iteration of `run_evolution`'s loop body, appending to this record. */
    method RunIteration(req: EvolveRequest, agent: Agent, k: int, queries: seq<Query>)
      returns (queriesAfter: seq<Query>, outcome: Outcome)
      modifies this
      ensures State(queriesAfter, outcome) == Iteration(req, agent, k, old(State(queries, Going)))
      ensures status == old(status) && maxIterations == old(maxIterations)
      ensures objective == old(objective) && targetPath == old(targetPath)
      ensures error == old(error) && startedAt == old(startedAt) && completedAt == old(completedAt)
    {
      currentIteration := k;
      queriesAfter, outcome := queries, Going;

      var analyze := agent(|queriesAfter|);
      queriesAfter := queriesAfter + [Ask(k, Analyze, None)];
      if analyze.Raised? {
        return queriesAfter, Broke(analyze.message);
      }
      changes := changes + [Change(k, Analyze, analyze.result, None)];

      var implement := agent(|queriesAfter|);
      queriesAfter := queriesAfter + [Ask(k, Implement, Some(analyze.sessionId))];
      if implement.Raised? {
        return queriesAfter, Broke(implement.message);
      }
      changes := changes + [Change(k, Implement, implement.result, Some(implement.toolsUsed))];

      var evaluateResume := implement.sessionId;
      if Truthy(req.testCommand) {
        var test := agent(|queriesAfter|);
        queriesAfter := queriesAfter + [Ask(k, Test, Some(implement.sessionId))];
        if test.Raised? {
          return queriesAfter, Broke(test.message);
        }
        testResults := testResults + [TestRecord(k, test.result)];
        if NeedsFix(test.result) {
          var fix := agent(|queriesAfter|);
          queriesAfter := queriesAfter + [Ask(k, Fix, Some(test.sessionId))];
          if fix.Raised? {
            return queriesAfter, Broke(fix.message);
          }
          changes := changes + [Change(k, Fix, fix.result, None)];
        }
        evaluateResume := test.sessionId;
      }

      var evaluate := agent(|queriesAfter|);
      queriesAfter := queriesAfter + [Ask(k, Evaluate, Some(evaluateResume))];
      if evaluate.Raised? {
        return queriesAfter, Broke(evaluate.message);
      }
      changes := changes + [Change(k, Evaluate, evaluate.result, None)];
      if Text.Contains(evaluate.result, Sentinel) {
        outcome := Met;
      }
    }
  }

  /** What the status endpoint returns for a task. */
  datatype StatusView = StatusView(
    taskId: string,
    status: TaskStatus,
    currentIteration: int,
    maxIterations: int,
    objective: string,
    changes: seq<Change>,
    testResults: seq<TestRecord>,
    error: Option<string>,
    startedAt: Option<nat>,
    completedAt: Option<nat>)

  /** The `HTTPException` of a failed lookup. */
  datatype HttpError = HttpError(statusCode: int, detail: string)

  /** What `start_evolution` answers. */
  datatype EvolveResponse = EvolveResponse(taskId: string, status: TaskStatus, maxIterations: int)

  /** `_tasks`: task id to record. */
  class TaskRegistry {
    var tasks: map<string, TaskRecord>

    constructor ()
      ensures tasks == map[] && Valid()
    {
      tasks := map[];
    }

    /** Each id has a record of its own: no two ids share one. */
    predicate Valid()
      reads this
    {
      forall a, b | a in tasks && b in tasks && a != b :: tasks[a] != tasks[b]
    }

    /** The view of a stored record, field for field. */
    function View(id: string): StatusView
      requires id in tasks
      reads this, tasks[id]
    {
      var t := tasks[id];
      StatusView(id, t.status, t.currentIteration, t.maxIterations, t.objective,
                 t.changes, t.testResults, t.error, t.startedAt, t.completedAt)
    }

    /** `start_evolution`: stores a fresh pending record under `id` (the generated uuid). */
    method StartEvolution(id: string, req: EvolveRequest) returns (response: EvolveResponse)
      requires Valid()
      modifies this
      ensures Valid()
      ensures id in tasks && fresh(tasks[id])
      ensures tasks == old(tasks)[id := tasks[id]]
      ensures View(id) == StatusView(id, Pending, 0, req.maxIterations, req.objective, [], [], None, None, None)
      ensures tasks[id].targetPath == req.targetPath
      ensures response == EvolveResponse(id, Pending, req.maxIterations)
    {
      var record := new TaskRecord(req);
      tasks := tasks[id := record];
      response := EvolveResponse(id, Pending, req.maxIterations);
    }

    /** `get_evolution_status`: the stored fields unchanged, or 404 for an unknown id. */
    method GetEvolutionStatus(id: string) returns (r: Result<StatusView, HttpError>)
      ensures id !in tasks ==> r == Err(HttpError(404, "Task " + id + " not found"))
      ensures id in tasks ==> r == Ok(View(id))
    {
      if id !in tasks {
        return Err(HttpError(404, "Task " + id + " not found"));
      }
      var t := tasks[id];
      r := Ok(StatusView(id, t.status, t.currentIteration, t.maxIterations, t.objective,
                         t.changes, t.testResults, t.error, t.startedAt, t.completedAt));
    }

    /** `run_evolution` on the record stored under `id`; the other records are untouched. */
    method RunEvolution(id: string, req: EvolveRequest, agent: Agent, startedAt: nat, completedAt: nat)
      returns (queries: seq<Query>)
      requires id in tasks && Valid()
      modifies tasks[id]
      ensures Valid()
      ensures forall other | other in tasks && other != id :: unchanged(tasks[other])
      ensures var t := tasks[id];
              var p := EvolveFrom(req, agent, 1, old(t.State([], Going)));
              t.State(queries, p.outcome) == p &&
              t.status == FinalStatus(p.outcome) && t.error == (if p.outcome.Broke? then Some(p.outcome.message) else old(t.error)) &&
              t.startedAt == Some(startedAt) && t.completedAt == Some(completedAt) &&
              t.maxIterations == old(t.maxIterations) && t.objective == old(t.objective) &&
              t.targetPath == old(t.targetPath)
    {
      queries := tasks[id].Run(req, agent, startedAt, completedAt);
    }
  }
}
