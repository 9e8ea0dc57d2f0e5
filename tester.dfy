/**
 * tester/tester.py: the graph that tests a schema before and after the
 * optimisation, analyses the results, waits for the operator's approval and
 * then, if approved, cleans up. The LLM and the executor are scripted: each
 * attempt says what the LLM replied and what executing the extracted SQL did.
 */
module Tester {
  import opened Wrappers
  import opened Workflow
  import Llm
  import Sql
  import SqlUtils

  /** What executing an attempt's extracted SQL did. */
  datatype Execution = ExecutorRaises | ExecutorReturns(results: seq<Sql.Row>)

  /** One scripted attempt: the LLM raised, or it replied and its SQL was executed. */
  datatype Attempt = LlmRaises | LlmReplies(content: string, execution: Execution)

  /**
   * The outcomes of every call the graph can make: the attempts of the
   * "before" and "after" tests, the analysis reply, and the cleanup attempts.
   */
  datatype Oracle = Oracle(before: seq<Attempt>, after: seq<Attempt>, analysis: Llm.Reply, cleanup: seq<Attempt>)

  /** `max_retries`. */
  const MaxRetries: nat := 3

  const TestingAgentNode := "testing_agent"
  const AnalyzeTestNode := "analyze_test"
  const HumanInLoopNode := "human_in_loop"
  const WindupNode := "windup"

  const CleanupError := "Error in cleanup: Could not generate valid SQL queries"
  const AnalysisError := "Error in analysis generation"

  /** The error text run_test returns once every attempt has failed. */
  function TestError(kind: string): string {
    "Error in testing the schema for " + kind + ": Could not generate valid SQL queries"
  }

  /** The one key of the dict run_test returns. */
  function TestKey(kind: string): (key: string)
    ensures key == "before_exec" <==> kind == "before_exec"
    ensures key == "before_exec" || key == "after_exec"
  {
    if kind == "before_exec" then "before_exec" else "after_exec"
  }

  /** Attempt `i` of a script; a script that runs out stands for an LLM that raises. */
  function AttemptAt(script: seq<Attempt>, i: nat): Attempt {
    if i < |script| then script[i] else LlmRaises
  }

  /**
   * An attempt succeeds when the reply is non-empty, extraction finds some
   * SQL in it, and executing that SQL returns; the verdict is then the rows
   * it returned. An exception, an empty reply or a reply without SQL each
   * cost the attempt.
   */
  function Verdict(a: Attempt): Option<seq<Sql.Row>> {
    if a.LlmReplies? && a.content != "" && SqlUtils.Extracted(a.content) != "" && a.execution.ExecutorReturns?
    then Some(a.execution.results)
    else None
  }

  predicate Succeeds(a: Attempt) {
    Verdict(a).Some?
  }

  /**
   * The ways an attempt fails, each on its own: the LLM raised, it replied
   * with nothing, extraction found no block or a single empty one, or
   * executing the SQL raised. Two empty blocks already join to the truthy
   * "\n\n" and do not fail the attempt.
   */
  predicate FailsOnItsOwn(a: Attempt) {
    || !a.LlmReplies?
    || a.content == ""
    || SqlUtils.Blocks(a.content) == []
    || SqlUtils.Blocks(a.content) == [""]
    || !a.execution.ExecutorReturns?
  }

  /** The verdict on an attempt is empty exactly when the attempt fails in one of those ways, and otherwise holds the executed rows. */
  lemma VerdictNoneIff(a: Attempt)
    ensures Verdict(a).None? <==> FailsOnItsOwn(a)
    ensures Verdict(a).Some? ==> a.LlmReplies? && a.execution == ExecutorReturns(Verdict(a).value)
  {
    if a.LlmReplies? {
      SqlUtils.ExtractedEmptyIff(a.content);
    }
  }

  /** How a retry loop ended, and how many attempts it made. */
  datatype Retried = Succeeded(results: seq<Sql.Row>, attempts: nat) | Exhausted(attempts: nat)

  /**
   * The retry loop from attempt `i` on, for a given verdict on attempts: stop
   * at the first attempt with a result, give up after MaxRetries attempts.
   */
  function RetryFrom(script: seq<Attempt>, i: nat, verdict: Attempt -> Option<seq<Sql.Row>>): Retried
    requires i <= MaxRetries
    decreases MaxRetries - i
  {
    if i == MaxRetries then Exhausted(MaxRetries)
    else match verdict(AttemptAt(script, i))
      case Some(results) => Succeeded(results, i + 1)
      case None => RetryFrom(script, i + 1, verdict)
  }

  /** The loops of run_test and windup. */
  function Retry(script: seq<Attempt>): Retried {
    RetryFrom(script, 0, Verdict)
  }

  /**
   * From attempt `i` on, the loop makes at most MaxRetries attempts in all,
   * stops at the first attempt with a result and returns that result, and
   * gives up only when no remaining attempt has one.
   */
  lemma {:induction false} RetryFromFirstSuccess(script: seq<Attempt>, i: nat, verdict: Attempt -> Option<seq<Sql.Row>>)
    requires i <= MaxRetries
    ensures i <= RetryFrom(script, i, verdict).attempts <= MaxRetries
    ensures RetryFrom(script, i, verdict).Succeeded? ==>
              i < RetryFrom(script, i, verdict).attempts
              && verdict(AttemptAt(script, RetryFrom(script, i, verdict).attempts - 1)) == Some(RetryFrom(script, i, verdict).results)
    ensures forall j :: i <= j && j + 1 < RetryFrom(script, i, verdict).attempts ==> verdict(AttemptAt(script, j)).None?
    ensures RetryFrom(script, i, verdict).Exhausted? ==>
              RetryFrom(script, i, verdict).attempts == MaxRetries
              && forall j :: i <= j < MaxRetries ==> verdict(AttemptAt(script, j)).None?
    decreases MaxRetries - i
  {
    if i < MaxRetries && verdict(AttemptAt(script, i)).None? {
      RetryFromFirstSuccess(script, i + 1, verdict);
    }
  }

  /** For any verdict: the loop succeeds exactly when one of the first MaxRetries attempts has a result, and then with the first such attempt. */
  lemma RetryFromStartIff(script: seq<Attempt>, verdict: Attempt -> Option<seq<Sql.Row>>)
    ensures RetryFrom(script, 0, verdict).Succeeded? <==> exists i :: 0 <= i < MaxRetries && verdict(AttemptAt(script, i)).Some?
    ensures RetryFrom(script, 0, verdict).Succeeded? ==>
              var i := RetryFrom(script, 0, verdict).attempts - 1;
              verdict(AttemptAt(script, i)).Some? && forall j :: 0 <= j < i ==> verdict(AttemptAt(script, j)).None?
  {
    RetryFromFirstSuccess(script, 0, verdict);
  }

  /** The loop succeeds exactly when one of the first MaxRetries attempts would, and then with the first such attempt. */
  lemma RetrySucceedsIff(script: seq<Attempt>)
    ensures Retry(script).Succeeded? <==> exists i :: 0 <= i < MaxRetries && Succeeds(AttemptAt(script, i))
    ensures Retry(script).Succeeded? ==>
              var i := Retry(script).attempts - 1;
              Succeeds(AttemptAt(script, i)) && forall j :: 0 <= j < i ==> !Succeeds(AttemptAt(script, j))
  {
    RetryFromStartIff(script, Verdict);
  }

  /** The value a retry loop stores: the results on success, the given error text otherwise. */
  function Outcome(r: Retried, error: string): Value {
    match r
    case Succeeded(results, _) => Rows(results)
    case Exhausted(_) => Str(error)
  }

  /**
   * The body of one pass of the retry loops' `try`: an exception, an empty
   * reply or a reply from which no SQL is extracted ends the pass without a
   * result; otherwise the extracted SQL is executed and its rows are the result.
   */
  method TryOnce(a: Attempt) returns (verdict: Option<seq<Sql.Row>>)
    ensures verdict.None? <==> FailsOnItsOwn(a)
    ensures verdict.Some? ==> a.LlmReplies? && a.execution == ExecutorReturns(verdict.value)
  {
    if a.LlmReplies? && a.content != "" {
      var queries := SqlUtils.ExtractSqlQueries(a.content);
      SqlUtils.ExtractedEmptyIff(a.content);
      if queries != "" && a.execution.ExecutorReturns? {
        return Some(a.execution.results);
      }
    }
    return None;
  }

  /**
   * run_test: up to MaxRetries LLM calls; the first attempt that succeeds
   * returns its results under the key for `kind`, and after the last failure
   * the fixed error text is returned under that key instead of raising.
   * `calls` is the number of LLM calls made. The schema and the optimised
   * queries only shape the prompt, so they are not parameters here.
   */
  method RunTest(kind: string, script: seq<Attempt>) returns (result: State, calls: nat)
    ensures result == map[TestKey(kind) := Outcome(Retry(script), TestError(kind))]
    ensures calls == Retry(script).attempts
  {
    var key := TestKey(kind);
    var currentTry := 0;
    while currentTry < MaxRetries
      invariant currentTry <= MaxRetries
      invariant Retry(script) == RetryFrom(script, currentTry, Verdict)
    {
      var verdict := TryOnce(AttemptAt(script, currentTry));
      VerdictNoneIff(AttemptAt(script, currentTry));
      if verdict.Some? {
        return map[key := Rows(verdict.value)], currentTry + 1;
      }
      currentTry := currentTry + 1;
    }
    return map[key := Str(TestError(kind))], currentTry;
  }

  /**
   * The executor as written: `SQLAgent()` is called without its required
   * `db_config`, and the agent has no `execute_queries`; either way executing
   * raises, whatever the LLM replied.
   */
  function AsWrittenAttempt(a: Attempt): Attempt {
    match a
    case LlmRaises => LlmRaises
    case LlmReplies(content, _) => LlmReplies(content, ExecutorRaises)
  }

  function AsWritten(script: seq<Attempt>): (r: seq<Attempt>)
    ensures |r| == |script|
    ensures forall i :: 0 <= i < |script| ==> (r[i].LlmReplies? <==> script[i].LlmReplies?)
    ensures forall i :: 0 <= i < |script| && r[i].LlmReplies? ==>
              r[i].content == script[i].content && r[i].execution == ExecutorRaises
  {
    seq(|script|, i requires 0 <= i < |script| => AsWrittenAttempt(script[i]))
  }

  /** As written, no attempt can succeed: every retry loop runs all MaxRetries attempts and ends in its error text. */
  lemma AsWrittenAlwaysExhausts(script: seq<Attempt>)
    ensures Retry(AsWritten(script)) == Exhausted(MaxRetries)
    ensures forall kind :: Outcome(Retry(AsWritten(script)), TestError(kind)) == Str(TestError(kind))
  {
    forall j | 0 <= j < MaxRetries
      ensures !Succeeds(AttemptAt(AsWritten(script), j))
    {
    }
    RetrySucceedsIff(AsWritten(script));
  }

  /**
   * testing_agent on a state: a missing schema raises KeyError, which the node
   * catches, so nothing changes; otherwise `before_exec` is set, then
   * `after_exec` too when `execute_query` is truthy. A missing
   * `execute_query` raises after `before_exec` was already assigned.
   */
  function TestingAgentUpdate(s: State, o: Oracle): State {
    if "schema" !in s then s
    else
      var s1 := s["before_exec" := Outcome(Retry(o.before), TestError("before_exec"))];
      if IsSet(s, "execute_query") then s1["after_exec" := Outcome(Retry(o.after), TestError("after_exec"))]
      else s1
  }

  /**
   * testing_agent always sets `before_exec` once the schema is there, sets
   * `after_exec` only when `execute_query` is truthy, and leaves every other
   * field as it was.
   */
  lemma TestingAgentFields(s: State, o: Oracle)
    ensures var r := TestingAgentUpdate(s, o);
            && ("schema" !in s ==> r == s)
            && ("schema" in s ==> "before_exec" in r && r["before_exec"] == Outcome(Retry(o.before), TestError("before_exec")))
            && (IsSet(s, "execute_query") && "schema" in s ==>
                  "after_exec" in r && r["after_exec"] == Outcome(Retry(o.after), TestError("after_exec")))
            && (!IsSet(s, "execute_query") ==> ("after_exec" in r <==> "after_exec" in s))
            && (!IsSet(s, "execute_query") && "after_exec" in s ==> r["after_exec"] == s["after_exec"])
            && r.Keys <= s.Keys + {"before_exec", "after_exec"}
            && forall k :: k in s && k != "before_exec" && k != "after_exec" ==> k in r && r[k] == s[k]
  {
  }

  /**
   * analyze_test: reading `before_exec` happens outside the `try`, so a
   * missing field raises; otherwise `results` is the reply's content, or the
   * fixed error text when the LLM raises.
   */
  function AnalyzeTestResult(s: State, reply: Llm.Reply): NodeResult {
    if "before_exec" !in s then Raised("KeyError: 'before_exec'")
    else
      match reply
      case Content(text) => Update(s["results" := Str(text)])
      case Raises(_) => Update(s["results" := Str(AnalysisError)])
  }

  /**
   * analyze_test raises exactly when `before_exec` is missing; otherwise it
   * adds `results` (the reply, or the fixed error text) and keeps every other
   * field.
   */
  lemma AnalyzeTestFields(s: State, reply: Llm.Reply)
    ensures AnalyzeTestResult(s, reply).Raised? <==> "before_exec" !in s
    ensures var r := AnalyzeTestResult(s, reply);
            r.Update? ==>
              && r.fields.Keys == s.Keys + {"results"}
              && (forall k :: k in s && k != "results" ==> r.fields[k] == s[k])
              && r.fields["results"] == Str(if reply.Content? then reply.text else AnalysisError)
  {
  }

  /**
   * windup: without a truthy `proceed_cleanup` nothing happens. Otherwise up
   * to MaxRetries attempts; a missing `schema` or `execute_query` makes each
   * attempt raise before the LLM is called. `wind_up` gets the first
   * success's results or the fixed error text.
   */
  function WindupUpdate(s: State, script: seq<Attempt>): State {
    if !IsSet(s, "proceed_cleanup") then s
    else if "schema" in s && "execute_query" in s then s["wind_up" := Outcome(Retry(script), CleanupError)]
    else s["wind_up" := Str(CleanupError)]
  }

  /**
   * windup changes nothing unless `proceed_cleanup` is truthy; otherwise it
   * adds `wind_up`, which is the fixed error text whenever a field the prompt
   * needs is missing, and keeps every other field.
   */
  lemma WindupFields(s: State, script: seq<Attempt>)
    ensures !IsSet(s, "proceed_cleanup") ==> WindupUpdate(s, script) == s
    ensures var r := WindupUpdate(s, script);
            IsSet(s, "proceed_cleanup") ==>
              && r.Keys == s.Keys + {"wind_up"}
              && (forall k :: k in s && k != "wind_up" ==> r[k] == s[k])
              && r["wind_up"] == (if "schema" in s && "execute_query" in s then Outcome(Retry(script), CleanupError) else Str(CleanupError))
  {
  }

  /** The number of LLM calls windup makes. */
  function WindupCalls(s: State, script: seq<Attempt>): (n: nat)
    ensures n <= MaxRetries
    ensures n > 0 ==> IsSet(s, "proceed_cleanup")
  {
    if IsSet(s, "proceed_cleanup") && "schema" in s && "execute_query" in s then Retry(script).attempts else 0
  }

  /** The state dict the tester's nodes receive and assign into. */
  class TestingState {
    var entries: State

    constructor (input: State)
      ensures entries == input
    {
      entries := input;
    }

    /** testing_agent, assigning into the state in place. */
    method TestingAgent(o: Oracle)
      modifies this
      ensures entries == TestingAgentUpdate(old(entries), o)
    {
      if "schema" !in entries {
        return;
      }
      var before, _ := RunTest("before_exec", o.before);
      entries := entries["before_exec" := before["before_exec"]];
      if IsSet(entries, "execute_query") {
        var after, _ := RunTest("after_exec", o.after);
        entries := entries["after_exec" := after["after_exec"]];
      }
    }

    /** analyze_test, assigning `results` in place unless the read of `before_exec` raises. */
    method AnalyzeTest(reply: Llm.Reply) returns (raised: bool)
      modifies this
      ensures raised == AnalyzeTestResult(old(entries), reply).Raised?
      ensures !raised ==> entries == AnalyzeTestResult(old(entries), reply).fields
      ensures raised ==> entries == old(entries)
    {
      if "before_exec" !in entries {
        return true;
      }
      match reply {
        case Content(text) => entries := entries["results" := Str(text)];
        case Raises(_) => entries := entries["results" := Str(AnalysisError)];
      }
      return false;
    }

    /** windup, assigning `wind_up` in place; `calls` counts the LLM calls. */
    method Windup(script: seq<Attempt>) returns (calls: nat)
      modifies this
      ensures entries == WindupUpdate(old(entries), script)
      ensures calls == WindupCalls(old(entries), script)
    {
      if !IsSet(entries, "proceed_cleanup") {
        return 0;
      }
      ghost var complete := "schema" in entries && "execute_query" in entries;
      calls := 0;
      var currentTry := 0;
      while currentTry < MaxRetries
        invariant entries == old(entries)
        invariant currentTry <= MaxRetries
        invariant complete ==> calls == currentTry && Retry(script) == RetryFrom(script, currentTry, Verdict)
        invariant !complete ==> calls == 0
      {
        if "schema" in entries && "execute_query" in entries {
          calls := calls + 1;
          var verdict := TryOnce(AttemptAt(script, currentTry));
          VerdictNoneIff(AttemptAt(script, currentTry));
          if verdict.Some? {
            entries := entries["wind_up" := Rows(verdict.value)];
            return;
          }
        }
        currentTry := currentTry + 1;
      }
      entries := entries["wind_up" := Str(CleanupError)];
    }
  }

  /** The node functions as the graph runs them: each returns the whole (updated) state. */
  function TesterNode(n: string, s: State, o: Oracle): (NodeResult, Oracle) {
    if n == TestingAgentNode then (Update(TestingAgentUpdate(s, o)), o)
    else if n == AnalyzeTestNode then (AnalyzeTestResult(s, o.analysis), o)
    else if n == HumanInLoopNode then (Update(s), o)
    else if n == WindupNode then (Update(WindupUpdate(s, o.cleanup)), o)
    else (Raised("KeyError: '" + n + "'"), o)
  }

  /** The routing lambda after human_in_loop: windup when `proceed_cleanup` is truthy, else END. */
  function TesterRoute(n: string, s: State): (t: Target)
    ensures t == To(WindupNode) <==> IsSet(s, "proceed_cleanup")
    ensures t == End <==> !IsSet(s, "proceed_cleanup")
  {
    if IsSet(s, "proceed_cleanup") then To(WindupNode) else End
  }

  /** The wiring: START→testing_agent→analyze_test→human_in_loop→{windup, END}, windup→END, pause before human_in_loop. */
  const TesterGraph := Graph(
    {TestingAgentNode, AnalyzeTestNode, HumanInLoopNode, WindupNode},
    TestingAgentNode,
    map[TestingAgentNode := [To(AnalyzeTestNode)], AnalyzeTestNode := [To(HumanInLoopNode)], WindupNode := [End]],
    map[HumanInLoopNode := [To(WindupNode), End]],
    {HumanInLoopNode})

  const Tester := Machine(TesterGraph, TesterNode, TesterRoute)

  /**
   * The wiring: the run starts at testing_agent, which leads to analyze_test
   * and then to human_in_loop alone; human_in_loop branches to windup or END
   * and is the only interrupt point; windup leads to END; every target named
   * is a declared node.
   */
  lemma TesterGraphWiring()
    ensures TesterGraph.start == TestingAgentNode
    ensures Pending(EdgesFrom(TesterGraph, TestingAgentNode)) == [AnalyzeTestNode]
    ensures Pending(EdgesFrom(TesterGraph, AnalyzeTestNode)) == [HumanInLoopNode]
    ensures EdgesFrom(TesterGraph, WindupNode) == [End]
    ensures EdgesFrom(TesterGraph, HumanInLoopNode) == []
    ensures TesterGraph.branches.Keys == {HumanInLoopNode}
    ensures TesterGraph.branches[HumanInLoopNode] == [To(WindupNode), End]
    ensures TesterGraph.interruptBefore == {HumanInLoopNode}
    ensures forall n, p :: n in TesterGraph.edges && To(p) in TesterGraph.edges[n] ==> p in TesterGraph.nodes
    ensures forall n, p :: n in TesterGraph.branches && To(p) in TesterGraph.branches[n] ==> p in TesterGraph.nodes
  {
    assert Pending([To(AnalyzeTestNode)]) == [AnalyzeTestNode];
    assert Pending([To(HumanInLoopNode)]) == [HumanInLoopNode];
  }

  /** The merge of a node's whole-state return is that state: returning the mutated dict has the effect of the mutation. */
  lemma WholeStateReturnIsTheMutation(s: State, o: Oracle)
    ensures Merge(s, TestingAgentUpdate(s, o)) == TestingAgentUpdate(s, o)
    ensures Merge(s, WindupUpdate(s, o.cleanup)) == WindupUpdate(s, o.cleanup)
  {
    TestingAgentFields(s, o);
    WindupFields(s, o.cleanup);
  }

  /**
   * The wiring on its own, for any node functions: when testing_agent and
   * analyze_test return updates, the first call applies both and pauses in
   * front of human_in_loop.
   */
  lemma WiredFirstCall<W>(m: Machine<W>, input: State, w: W, u1: State, u2: State)
    requires m.graph == TesterGraph
    requires m.node(TestingAgentNode, input, w) == (Update(u1), w)
    requires m.node(AnalyzeTestNode, Merge(input, u1), w) == (Update(u2), w)
    ensures Invoke(m, input, w)
              == Run(Paused([HumanInLoopNode]), Merge(Merge(input, u1), u2), [TestingAgentNode, AnalyzeTestNode], w)
  {
    assert Merge(map[], input) == input;
    StepInto(m, TestingAgentNode, input, w, [], RecursionLimit);
    StepUnconditional(m, TestingAgentNode, input, w, [], RecursionLimit, u1, w);
    assert Pending(EdgesFrom(TesterGraph, TestingAgentNode)) == [AnalyzeTestNode];
    var s1 := Merge(input, u1);
    StepInto(m, AnalyzeTestNode, s1, w, [TestingAgentNode], RecursionLimit - 1);
    StepUnconditional(m, AnalyzeTestNode, s1, w, [TestingAgentNode], RecursionLimit - 1, u2, w);
    assert Pending(EdgesFrom(TesterGraph, AnalyzeTestNode)) == [HumanInLoopNode];
    assert Interrupts(TesterGraph, [HumanInLoopNode]);
  }

  /** The wiring on its own: when analyze_test raises, the first call fails there, after testing_agent. */
  lemma WiredFirstCallRaises<W>(m: Machine<W>, input: State, w: W, u1: State, reason: string)
    requires m.graph == TesterGraph
    requires m.node(TestingAgentNode, input, w) == (Update(u1), w)
    requires m.node(AnalyzeTestNode, Merge(input, u1), w) == (Raised(reason), w)
    ensures Invoke(m, input, w)
              == Run(Failed(NodeRaised(AnalyzeTestNode, reason)), Merge(input, u1), [TestingAgentNode], w)
  {
    assert Merge(map[], input) == input;
    StepInto(m, TestingAgentNode, input, w, [], RecursionLimit);
    StepUnconditional(m, TestingAgentNode, input, w, [], RecursionLimit, u1, w);
    assert Pending(EdgesFrom(TesterGraph, TestingAgentNode)) == [AnalyzeTestNode];
    StepInto(m, AnalyzeTestNode, Merge(input, u1), w, [TestingAgentNode], RecursionLimit - 1);
  }

  /**
   * The wiring on its own: resuming in front of human_in_loop, whose node
   * returns the state unchanged, goes on to windup when the routing function
   * picks it and ends otherwise.
   */
  lemma WiredResume<W>(m: Machine<W>, paused: Run<W>, answer: State, uw: State)
    requires m.graph == TesterGraph && paused.status == Paused([HumanInLoopNode])
    requires var s := Merge(paused.state, answer);
             && m.node(HumanInLoopNode, s, paused.world) == (Update(s), paused.world)
             && m.route(HumanInLoopNode, s) == (if IsSet(s, "proceed_cleanup") then To(WindupNode) else End)
             && m.node(WindupNode, s, paused.world) == (Update(uw), paused.world)
    ensures var s := Merge(paused.state, answer);
            Resume(m, paused, answer)
              == if IsSet(s, "proceed_cleanup")
                 then Run(Completed, Merge(s, uw), paused.trace + [HumanInLoopNode, WindupNode], paused.world)
                 else Run(Completed, s, paused.trace + [HumanInLoopNode], paused.world)
  {
    var s := Merge(paused.state, answer);
    var w := paused.world;
    assert Merge(s, s) == s;
    StepRouted(m, HumanInLoopNode, s, w, paused.trace, RecursionLimit, s, w);
    assert EdgesFrom(TesterGraph, HumanInLoopNode) == [];
    if IsSet(s, "proceed_cleanup") {
      assert Pending([To(WindupNode)]) == [WindupNode];
      StepInto(m, WindupNode, s, w, paused.trace + [HumanInLoopNode], RecursionLimit - 1);
      StepUnconditional(m, WindupNode, s, w, paused.trace + [HumanInLoopNode], RecursionLimit - 1, uw, w);
      assert Pending(EdgesFrom(TesterGraph, WindupNode)) == [];
      assert paused.trace + [HumanInLoopNode] + [WindupNode] == paused.trace + [HumanInLoopNode, WindupNode];
    } else {
      assert Pending([End]) == [];
    }
  }

  /**
   * The first call runs testing_agent and analyze_test and pauses in front of
   * human_in_loop, holding the tests' results and the analysis.
   */
  lemma FirstCallPausesForApproval(input: State, o: Oracle)
    requires "schema" in input
    ensures Invoke(Tester, input, o).status == Paused([HumanInLoopNode])
    ensures Invoke(Tester, input, o).trace == [TestingAgentNode, AnalyzeTestNode]
    ensures Invoke(Tester, input, o).state == AnalyzeTestResult(TestingAgentUpdate(input, o), o.analysis).fields
  {
    var s1 := TestingAgentUpdate(input, o);
    WholeStateReturnIsTheMutation(input, o);
    TestingAgentFields(input, o);
    var s2 := AnalyzeTestResult(s1, o.analysis).fields;
    AnalyzeTestFields(s1, o.analysis);
    assert Merge(s1, s2) == s2;
    WiredFirstCall(Tester, input, o, s1, s2);
  }

  /** Without a schema testing_agent changes nothing, so analyze_test's read of `before_exec` raises. */
  lemma MissingSchemaFailsAtAnalysis(input: State, o: Oracle)
    requires "schema" !in input && "before_exec" !in input
    ensures Invoke(Tester, input, o).status == Failed(NodeRaised(AnalyzeTestNode, "KeyError: 'before_exec'"))
    ensures Invoke(Tester, input, o).trace == [TestingAgentNode]
  {
    TestingAgentFields(input, o);
    assert Merge(input, input) == input;
    WiredFirstCallRaises(Tester, input, o, input, "KeyError: 'before_exec'");
  }

  /**
   * Resuming a paused run with the operator's fields: windup runs exactly
   * when the merged `proceed_cleanup` is truthy, and the run completes either
   * way, with `wind_up` holding the cleanup's outcome when it ran.
   */
  lemma ResumeCleansUpIffApproved(paused: Run<Oracle>, answer: State)
    requires paused.status == Paused([HumanInLoopNode])
    ensures Resume(Tester, paused, answer).status == Completed
    ensures var s := Merge(paused.state, answer);
            Resume(Tester, paused, answer).trace
              == paused.trace + (if IsSet(s, "proceed_cleanup") then [HumanInLoopNode, WindupNode] else [HumanInLoopNode])
    ensures var s := Merge(paused.state, answer);
            Resume(Tester, paused, answer).state == WindupUpdate(s, paused.world.cleanup)
  {
    var s := Merge(paused.state, answer);
    var o := paused.world;
    WholeStateReturnIsTheMutation(s, o);
    WindupFields(s, o.cleanup);
    WiredResume(Tester, paused, answer, WindupUpdate(s, o.cleanup));
  }

  /** When every cleanup attempt fails the run still completes, recording the fixed error text. */
  lemma FailedCleanupStillCompletes(paused: Run<Oracle>, answer: State)
    requires paused.status == Paused([HumanInLoopNode])
    requires IsSet(Merge(paused.state, answer), "proceed_cleanup")
    requires forall j :: 0 <= j < MaxRetries ==> !Succeeds(AttemptAt(paused.world.cleanup, j))
    ensures Resume(Tester, paused, answer).status == Completed
    ensures "wind_up" in Resume(Tester, paused, answer).state
            && Resume(Tester, paused, answer).state["wind_up"] == Str(CleanupError)
  {
    ResumeCleansUpIffApproved(paused, answer);
    RetrySucceedsIff(paused.world.cleanup);
    WindupFields(Merge(paused.state, answer), paused.world.cleanup);
  }
}
