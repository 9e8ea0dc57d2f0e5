/**
 * performer/performer.py: the graph that analyses a database schema with the
 * LLM, asks the operator whether the analysis is satisfactory, re-analyses
 * with the operator's feedback, and finally renders the analysis as a report.
 * The LLM's replies and the lines typed on standard input are scripted; the
 * prompts are reduced to the fields they are built from.
 */
module Performer {
  import opened Workflow
  import Llm
  import TextOps = Text

  const AnalyzeDatabaseNode := "analyze_database"
  const HumanInLoopNode := "human_in_loop"
  const CreateHumanReadableNode := "create_human_readable"

  /** What an LLM call was asked, reduced to the fields its prompt is built from. */
  datatype Request =
    | FirstAnalysis(query: string, schema: string)
    | Reanalysis(previous: string, query: string, feedback: string, schema: string)
    | Render(analysis: string)

  /**
   * The world outside the graph: the LLM's replies still to come, the lines
   * still to be read from standard input, and the requests the LLM was sent.
   */
  datatype Console = Console(replies: seq<Llm.Reply>, stdin: seq<string>, asked: seq<Request>)

  /** One `llm.invoke`: the next reply; a script that has run out stands for a call that raises. */
  function Ask(c: Console, request: Request): (Llm.Reply, Console) {
    var c' := c.(asked := c.asked + [request]);
    if c.replies == [] then (Llm.Raises("no reply"), c')
    else (c.replies[0], c'.(replies := c.replies[1..]))
  }

  /**
   * The prompt analyze_database builds. Each field is read with `get(key, "")`;
   * the re-analysis prompt is chosen when the previous analysis, the feedback
   * and the schema are all non-empty, and `query` plays no part in the choice.
   */
  function AnalysisRequest(s: State): (r: Request)
    ensures r.Reanalysis? <==> Text(s, "analysis") != "" && Text(s, "feedback") != "" && Text(s, "schema") != ""
    ensures !r.Render? && r.query == Text(s, "query") && r.schema == Text(s, "schema")
    ensures r.Reanalysis? ==> r.previous == Text(s, "analysis") && r.feedback == Text(s, "feedback")
  {
    var query := Text(s, "query");
    var previous := Text(s, "analysis");
    var feedback := Text(s, "feedback");
    var schema := Text(s, "schema");
    if previous != "" && feedback != "" && schema != "" then Reanalysis(previous, query, feedback, schema)
    else FirstAnalysis(query, schema)
  }

  /** The update analyze_database returns for a reply: the new analysis, with the feedback cleared. */
  function AnalysisFields(text: string): State {
    map["analysis" := Str(text), "feedback" := Str("")]
  }

  /**
   * analyze_database: one LLM call with the prompt above. A reply becomes an
   * update of exactly `analysis` and `feedback`, the latter always cleared;
   * an exception from the LLM escapes the node.
   */
  function AnalyzeDatabase(s: State, c: Console): (NodeResult, Console) {
    var (reply, c') := Ask(c, AnalysisRequest(s));
    match reply
    case Content(text) => (Update(AnalysisFields(text)), c')
    case Raises(reason) => (Raised(reason), c')
  }

  /**
   * analyze_database updates exactly when the LLM replies, and then exactly
   * `analysis` (the reply) and `feedback` (cleared); otherwise it raises. It
   * sends one prompt and reads no input.
   */
  lemma AnalyzeDatabaseFields(s: State, c: Console)
    ensures var r := AnalyzeDatabase(s, c);
            && (r.0.Update? <==> c.replies != [] && c.replies[0].Content?)
            && (r.0.Update? ==> r.0.fields.Keys == {"analysis", "feedback"} && r.0.fields["feedback"] == Str(""))
            && (r.0.Update? ==> r.0.fields["analysis"] == Str(c.replies[0].text))
            && (r.0.Raised? <==> !r.0.Update?)
            && r.1.asked == c.asked + [AnalysisRequest(s)] && r.1.stdin == c.stdin
            && r.1.replies == (if c.replies == [] then [] else c.replies[1..])
  {
  }

  /** The operator's answer declines the analysis: `.strip().lower() == "no"`. */
  predicate Declines(answer: string) {
    TextOps.Lower(TextOps.Strip(answer)) == "no"
  }

  /**
   * human_in_loop: reads an answer; when it declines, the next line is the
   * feedback, otherwise the feedback is empty. The update holds `feedback`
   * only. End of input makes `input()` raise EOFError.
   */
  function HumanInLoop(s: State, c: Console): (NodeResult, Console) {
    if c.stdin == [] then (Raised("EOFError"), c.(stdin := []))
    else if Declines(c.stdin[0]) then
      if |c.stdin| < 2 then (Raised("EOFError"), c.(stdin := []))
      else (Update(map["feedback" := Str(c.stdin[1])]), c.(stdin := c.stdin[2..]))
    else (Update(map["feedback" := Str("")]), c.(stdin := c.stdin[1..]))
  }

  /**
   * human_in_loop raises only at the end of input; otherwise its update is
   * `feedback` alone, non-empty exactly when the answer declines and the next
   * line is not empty. It reads the feedback line only after a declining
   * answer, so it consumes two lines then and one line otherwise. It never
   * calls the LLM and ignores the state.
   */
  lemma HumanInLoopFields(s: State, c: Console)
    ensures var r := HumanInLoop(s, c);
            && (r.0.Raised? <==> c.stdin == [] || (Declines(c.stdin[0]) && |c.stdin| < 2))
            && (r.0.Update? <==> !r.0.Raised?)
            && (r.0.Update? ==> r.0.fields.Keys == {"feedback"})
            && (r.0.Update? ==> (r.0.fields["feedback"] != Str("") <==> Declines(c.stdin[0]) && c.stdin[1] != ""))
            && (r.0.Update? ==> r.0.fields["feedback"] == Str(if Declines(c.stdin[0]) then c.stdin[1] else ""))
            && (r.0.Update? ==> r.1.stdin == (if Declines(c.stdin[0]) then c.stdin[2..] else c.stdin[1..]))
            && (r.0.Raised? ==> r.1.stdin == [])
            && r.1.replies == c.replies && r.1.asked == c.asked
            && forall s' :: HumanInLoop(s', c) == r
  {
  }

  /** An answer declines exactly when, stripped, it is the two letters n and o, in either case. */
  lemma DeclinesIff(answer: string)
    ensures Declines(answer)
            <==> var t := TextOps.Strip(answer); |t| == 2 && (t[0] == 'n' || t[0] == 'N') && (t[1] == 'o' || t[1] == 'O')
  {
    var t := TextOps.Strip(answer);
    var l := TextOps.Lower(t);
    if |t| == 2 && (t[0] == 'n' || t[0] == 'N') && (t[1] == 'o' || t[1] == 'O') {
      assert l[0] == 'n' && l[1] == 'o';
      assert l == "no";
    }
    if l == "no" {
      assert l[0] == 'n' && l[1] == 'o';
    }
  }

  /** Surrounding whitespace and capitals do not matter. */
  lemma PaddedCapitalsDecline()
    ensures Declines(" NO ")
  {
    DeclinesIff(" NO ");
    assert TextOps.Strip(" NO ") == "NO" by {
      assert TextOps.SkipSpaces(" NO ", 0) == 1;
      assert TextOps.BackSpaces(" NO ", 1, 4) == 3;
    }
  }

  /** An abbreviated refusal does not decline: the operator is taken to approve. */
  lemma AbbreviationDoesNotDecline()
    ensures !Declines("n")
  {
    DeclinesIff("n");
  }

  /** should_continue: back to analyze_database when `feedback` is truthy, otherwise END. */
  function ShouldContinue(n: string, s: State): (t: Target)
    ensures t == To(AnalyzeDatabaseNode) <==> IsSet(s, "feedback")
    ensures t == End <==> !IsSet(s, "feedback")
  {
    if IsSet(s, "feedback") then To(AnalyzeDatabaseNode) else End
  }

  /**
   * Analysis runs again only on feedback given in the human_in_loop step just
   * before: after human_in_loop the route leads back to analyze_database
   * exactly when the operator declined and typed a non-empty line, whatever
   * the state held before.
   */
  lemma ReentryNeedsFreshFeedback(s: State, c: Console)
    requires HumanInLoop(s, c).0.Update?
    ensures ShouldContinue(HumanInLoopNode, Merge(s, HumanInLoop(s, c).0.fields)) == To(AnalyzeDatabaseNode)
            <==> Declines(c.stdin[0]) && c.stdin[1] != ""
  {
    var u := HumanInLoop(s, c).0.fields;
    assert Merge(s, u)["feedback"] == u["feedback"];
  }

  /** analyze_database clears the feedback, so the state it leaves never routes back by itself. */
  lemma AnalysisClearsFeedback(s: State, c: Console)
    requires AnalyzeDatabase(s, c).0.Update?
    ensures ShouldContinue(HumanInLoopNode, Merge(s, AnalyzeDatabase(s, c).0.fields)) == End
    ensures AnalysisRequest(Merge(s, AnalyzeDatabase(s, c).0.fields)).FirstAnalysis?
  {
    var u := AnalyzeDatabase(s, c).0.fields;
    assert Merge(s, u)["feedback"] == Str("");
  }

  /**
   * create_human_readable: one LLM call asking for the analysis as Markdown;
   * the reply's content is written to the report and returned as a plain
   * string, not as a dict.
   */
  function CreateHumanReadable(s: State, c: Console): (NodeResult, Console) {
    var (reply, c') := Ask(c, Render(Text(s, "analysis")));
    match reply
    case Content(text) => (Bare(text), c')
    case Raises(reason) => (Raised(reason), c')
  }

  /**
   * create_human_readable never returns a dict: the reply's content comes
   * back as a plain string, or the LLM's exception escapes. It asks for the
   * current analysis to be rendered.
   */
  lemma CreateHumanReadableFields(s: State, c: Console)
    ensures var r := CreateHumanReadable(s, c);
            && (r.0.Bare? <==> c.replies != [] && c.replies[0].Content?)
            && (r.0.Bare? ==> r.0.text == c.replies[0].text)
            && !r.0.Update?
            && r.1.asked == c.asked + [Render(Text(s, "analysis"))] && r.1.stdin == c.stdin
  {
  }

  /** The node functions by name. */
  function PerformerNode(n: string, s: State, c: Console): (NodeResult, Console) {
    if n == AnalyzeDatabaseNode then AnalyzeDatabase(s, c)
    else if n == HumanInLoopNode then HumanInLoop(s, c)
    else if n == CreateHumanReadableNode then CreateHumanReadable(s, c)
    else (Raised("KeyError: '" + n + "'"), c)
  }

  /**
   * The wiring as declared: START→analyze_database, analyze_database→
   * human_in_loop and analyze_database→create_human_readable,
   * create_human_readable→END, the branch after human_in_loop declared with
   * the candidates analyze_database and create_human_readable, and a pause
   * before human_in_loop.
   */
  const DeclaredGraph := Graph(
    {AnalyzeDatabaseNode, HumanInLoopNode, CreateHumanReadableNode},
    AnalyzeDatabaseNode,
    map[AnalyzeDatabaseNode := [To(HumanInLoopNode), To(CreateHumanReadableNode)],
        CreateHumanReadableNode := [End]],
    map[HumanInLoopNode := [To(AnalyzeDatabaseNode), To(CreateHumanReadableNode)]],
    {HumanInLoopNode})

  const Declared := Machine(DeclaredGraph, PerformerNode, ShouldContinue)

  /**
   * The declared wiring: the run starts at analyze_database, which leads to
   * both human_in_loop and create_human_readable; create_human_readable leads
   * to END; human_in_loop branches to one of two declared nodes and is the
   * only interrupt point; every target named is a declared node.
   */
  lemma DeclaredGraphWiring()
    ensures DeclaredGraph.start == AnalyzeDatabaseNode
    ensures Pending(EdgesFrom(DeclaredGraph, AnalyzeDatabaseNode)) == [HumanInLoopNode, CreateHumanReadableNode]
    ensures EdgesFrom(DeclaredGraph, CreateHumanReadableNode) == [End]
    ensures EdgesFrom(DeclaredGraph, HumanInLoopNode) == []
    ensures DeclaredGraph.branches.Keys == {HumanInLoopNode}
    ensures End !in DeclaredGraph.branches[HumanInLoopNode]
    ensures DeclaredGraph.interruptBefore == {HumanInLoopNode}
    ensures forall n, p :: n in DeclaredGraph.edges && To(p) in DeclaredGraph.edges[n] ==> p in DeclaredGraph.nodes
    ensures forall n, p :: n in DeclaredGraph.branches && To(p) in DeclaredGraph.branches[n] ==> p in DeclaredGraph.nodes
  {
    assert Pending([To(CreateHumanReadableNode)]) == [CreateHumanReadableNode];
  }

  /**
   * The declared wiring on its own, for any node functions: once
   * analyze_database has returned an update, both of its successors are due,
   * and since one of them is human_in_loop the run pauses in front of both.
   */
  lemma WiredDeclaredFirstCall<W>(m: Machine<W>, input: State, w: W, u: State, w': W)
    requires m.graph == DeclaredGraph
    requires m.node(AnalyzeDatabaseNode, input, w) == (Update(u), w')
    ensures Invoke(m, input, w)
              == Run(Paused([HumanInLoopNode, CreateHumanReadableNode]), Merge(input, u), [AnalyzeDatabaseNode], w')
  {
    assert Merge(map[], input) == input;
    StepInto(m, AnalyzeDatabaseNode, input, w, [], RecursionLimit);
    StepUnconditional(m, AnalyzeDatabaseNode, input, w, [], RecursionLimit, u, w');
    assert Pending(EdgesFrom(DeclaredGraph, AnalyzeDatabaseNode)) == [HumanInLoopNode, CreateHumanReadableNode] by {
      assert Pending([To(CreateHumanReadableNode)]) == [CreateHumanReadableNode];
    }
    assert Interrupts(DeclaredGraph, [HumanInLoopNode, CreateHumanReadableNode]) by {
      assert HumanInLoopNode in [HumanInLoopNode, CreateHumanReadableNode];
    }
  }

  /**
   * The first call analyses once and stops in front of human_in_loop with
   * create_human_readable due alongside it: the report is not written after
   * the operator's approval but in the same step as the question.
   */
  lemma DeclaredFirstCallPausesBeforeBoth(input: State, c: Console)
    requires c.replies != [] && c.replies[0].Content?
    ensures Invoke(Declared, input, c)
              == Run(Paused([HumanInLoopNode, CreateHumanReadableNode]),
                     Merge(input, AnalysisFields(c.replies[0].text)),
                     [AnalyzeDatabaseNode],
                     Console(c.replies[1..], c.stdin, c.asked + [AnalysisRequest(input)]))
  {
    WiredDeclaredFirstCall(Declared, input, c, AnalysisFields(c.replies[0].text),
                           Console(c.replies[1..], c.stdin, c.asked + [AnalysisRequest(input)]));
  }

  /**
   * Resuming the declared graph after that pause has two nodes due at once,
   * which a single-step run does not schedule: the operator's answer is never
   * acted on by itself.
   */
  lemma DeclaredResumeFansOut(paused: Run<Console>, answer: State)
    requires paused.status == Paused([HumanInLoopNode, CreateHumanReadableNode])
    ensures Resume(Declared, paused, answer).status == Failed(FanOut([HumanInLoopNode, CreateHumanReadableNode]))
    ensures Resume(Declared, paused, answer).state == Merge(paused.state, answer)
  {
  }

  /**
   * The declared branch cannot finish: when human_in_loop runs and the
   * operator approves, should_continue picks END, which is not among the
   * declared candidates, and the run stops with a routing error.
   */
  lemma DeclaredApprovalHasNoRoute(s: State, c: Console, trace: seq<string>, fuel: nat)
    requires fuel > 0 && c.stdin != [] && !Declines(c.stdin[0])
    ensures Execute(Declared, HumanInLoopNode, s, c, trace, fuel).status == Failed(RoutingError(HumanInLoopNode, End))
    ensures Execute(Declared, HumanInLoopNode, s, c, trace, fuel).state == s
  {
    var u := map["feedback" := Str("")];
    assert HumanInLoop(s, c).0 == Update(u);
    assert !IsSet(Merge(s, u), "feedback") by {
      assert Merge(s, u)["feedback"] == Str("");
    }
  }

  /** Where create_human_readable does run, its plain-string result is not a state update, and the run stops there. */
  lemma DeclaredRenderIsNotAnUpdate(s: State, c: Console, trace: seq<string>, fuel: nat)
    requires fuel > 0 && c.replies != [] && c.replies[0].Content?
    ensures Execute(Declared, CreateHumanReadableNode, s, c, trace, fuel).status == Failed(InvalidUpdate(CreateHumanReadableNode))
  {
    assert CreateHumanReadable(s, c).0.Bare?;
  }

  /**
   * The evidently intended routing: back to analyze_database on feedback,
   * otherwise on to create_human_readable, which is then the only way to END.
   */
  function RevisedRoute(n: string, s: State): (t: Target)
    ensures t == To(AnalyzeDatabaseNode) <==> IsSet(s, "feedback")
    ensures t == To(CreateHumanReadableNode) <==> !IsSet(s, "feedback")
  {
    if IsSet(s, "feedback") then To(AnalyzeDatabaseNode) else To(CreateHumanReadableNode)
  }

  /** The revised routing picks a declared candidate for every state, so it never stops with a routing error. */
  lemma RevisedRouteIsDeclared(s: State)
    ensures RevisedRoute(HumanInLoopNode, s) in RevisedGraph.branches[HumanInLoopNode]
    ensures ShouldContinue(HumanInLoopNode, s) in DeclaredGraph.branches[HumanInLoopNode] <==> IsSet(s, "feedback")
  {
  }

  /** create_human_readable as intended: the report is written and the state is left as it is. */
  function RevisedRender(s: State, c: Console): (NodeResult, Console) {
    var (reply, c') := Ask(c, Render(Text(s, "analysis")));
    match reply
    case Content(_) => (Update(map[]), c')
    case Raises(reason) => (Raised(reason), c')
  }

  /** The revised render asks the same and consumes the same reply, but returns an empty update where the original returns the text. */
  lemma RevisedRenderFields(s: State, c: Console)
    ensures RevisedRender(s, c).0.Update? <==> CreateHumanReadable(s, c).0.Bare?
    ensures RevisedRender(s, c).0.Update? ==> RevisedRender(s, c).0.fields == map[]
    ensures RevisedRender(s, c).0.Raised? <==> CreateHumanReadable(s, c).0.Raised?
    ensures RevisedRender(s, c).1 == CreateHumanReadable(s, c).1
  {
  }

  function RevisedNode(n: string, s: State, c: Console): (NodeResult, Console) {
    if n == CreateHumanReadableNode then RevisedRender(s, c) else PerformerNode(n, s, c)
  }

  /** The revised wiring: analyze_database leads to human_in_loop alone. */
  const RevisedGraph := Graph(
    {AnalyzeDatabaseNode, HumanInLoopNode, CreateHumanReadableNode},
    AnalyzeDatabaseNode,
    map[AnalyzeDatabaseNode := [To(HumanInLoopNode)], CreateHumanReadableNode := [End]],
    map[HumanInLoopNode := [To(AnalyzeDatabaseNode), To(CreateHumanReadableNode)]],
    {HumanInLoopNode})

  const Revised := Machine(RevisedGraph, RevisedNode, RevisedRoute)

  /** The revised wiring on its own: after analyze_database's update the run pauses in front of human_in_loop. */
  lemma WiredRevisedFirstCall<W>(m: Machine<W>, input: State, w: W, u: State, w': W)
    requires m.graph == RevisedGraph
    requires m.node(AnalyzeDatabaseNode, input, w) == (Update(u), w')
    ensures Invoke(m, input, w) == Run(Paused([HumanInLoopNode]), Merge(input, u), [AnalyzeDatabaseNode], w')
  {
    assert Merge(map[], input) == input;
    StepInto(m, AnalyzeDatabaseNode, input, w, [], RecursionLimit);
    StepUnconditional(m, AnalyzeDatabaseNode, input, w, [], RecursionLimit, u, w');
    assert Pending(EdgesFrom(RevisedGraph, AnalyzeDatabaseNode)) == [HumanInLoopNode];
    assert Interrupts(RevisedGraph, [HumanInLoopNode]);
  }

  /**
   * The revised wiring on its own: resuming with feedback runs human_in_loop,
   * goes back to analyze_database and pauses in front of human_in_loop again.
   */
  lemma WiredRevisedFeedback<W>(m: Machine<W>, paused: Run<W>, answer: State, uh: State, wh: W, ua: State, wa: W)
    requires m.graph == RevisedGraph && paused.status == Paused([HumanInLoopNode])
    requires var s := Merge(paused.state, answer);
             && m.node(HumanInLoopNode, s, paused.world) == (Update(uh), wh)
             && m.route(HumanInLoopNode, Merge(s, uh)) == To(AnalyzeDatabaseNode)
             && m.node(AnalyzeDatabaseNode, Merge(s, uh), wh) == (Update(ua), wa)
    ensures var s := Merge(paused.state, answer);
            Resume(m, paused, answer)
              == Run(Paused([HumanInLoopNode]), Merge(Merge(s, uh), ua), paused.trace + [HumanInLoopNode, AnalyzeDatabaseNode], wa)
  {
    var s := Merge(paused.state, answer);
    var trace := paused.trace + [HumanInLoopNode];
    StepRouted(m, HumanInLoopNode, s, paused.world, paused.trace, RecursionLimit, uh, wh);
    assert EdgesFrom(RevisedGraph, HumanInLoopNode) + [To(AnalyzeDatabaseNode)] == [To(AnalyzeDatabaseNode)];
    assert Pending([To(AnalyzeDatabaseNode)]) == [AnalyzeDatabaseNode];
    StepInto(m, AnalyzeDatabaseNode, Merge(s, uh), wh, trace, RecursionLimit - 1);
    StepUnconditional(m, AnalyzeDatabaseNode, Merge(s, uh), wh, trace, RecursionLimit - 1, ua, wa);
    assert Pending(EdgesFrom(RevisedGraph, AnalyzeDatabaseNode)) == [HumanInLoopNode];
    assert Interrupts(RevisedGraph, [HumanInLoopNode]);
    assert trace + [AnalyzeDatabaseNode] == paused.trace + [HumanInLoopNode, AnalyzeDatabaseNode];
  }

  /**
   * The revised wiring on its own: resuming without feedback runs
   * human_in_loop, then create_human_readable, and completes.
   */
  lemma WiredRevisedApproval<W>(m: Machine<W>, paused: Run<W>, answer: State, uh: State, wh: W, ur: State, wr: W)
    requires m.graph == RevisedGraph && paused.status == Paused([HumanInLoopNode])
    requires var s := Merge(paused.state, answer);
             && m.node(HumanInLoopNode, s, paused.world) == (Update(uh), wh)
             && m.route(HumanInLoopNode, Merge(s, uh)) == To(CreateHumanReadableNode)
             && m.node(CreateHumanReadableNode, Merge(s, uh), wh) == (Update(ur), wr)
    ensures var s := Merge(paused.state, answer);
            Resume(m, paused, answer)
              == Run(Completed, Merge(Merge(s, uh), ur), paused.trace + [HumanInLoopNode, CreateHumanReadableNode], wr)
  {
    var s := Merge(paused.state, answer);
    var trace := paused.trace + [HumanInLoopNode];
    StepRouted(m, HumanInLoopNode, s, paused.world, paused.trace, RecursionLimit, uh, wh);
    assert EdgesFrom(RevisedGraph, HumanInLoopNode) + [To(CreateHumanReadableNode)] == [To(CreateHumanReadableNode)];
    assert Pending([To(CreateHumanReadableNode)]) == [CreateHumanReadableNode];
    StepInto(m, CreateHumanReadableNode, Merge(s, uh), wh, trace, RecursionLimit - 1);
    StepUnconditional(m, CreateHumanReadableNode, Merge(s, uh), wh, trace, RecursionLimit - 1, ur, wr);
    assert Pending(EdgesFrom(RevisedGraph, CreateHumanReadableNode)) == [];
    assert trace + [CreateHumanReadableNode] == paused.trace + [HumanInLoopNode, CreateHumanReadableNode];
  }

  /** The revised first call: one analysis, then a pause in front of human_in_loop. */
  lemma RevisedFirstCall(input: State, c: Console)
    requires c.replies != [] && c.replies[0].Content?
    ensures Invoke(Revised, input, c)
              == Run(Paused([HumanInLoopNode]), Merge(input, AnalysisFields(c.replies[0].text)), [AnalyzeDatabaseNode],
                     Console(c.replies[1..], c.stdin, c.asked + [AnalysisRequest(input)]))
  {
    WiredRevisedFirstCall(Revised, input, c, AnalysisFields(c.replies[0].text),
                          Console(c.replies[1..], c.stdin, c.asked + [AnalysisRequest(input)]));
  }

  /**
   * A revised resume on which the operator declines and gives feedback: the
   * feedback reaches the next analysis prompt, and the run pauses again.
   */
  lemma RevisedFeedbackRound(paused: Run<Console>, answer: State)
    requires paused.status == Paused([HumanInLoopNode])
    requires var c := paused.world;
             |c.stdin| >= 2 && Declines(c.stdin[0]) && c.stdin[1] != "" && c.replies != [] && c.replies[0].Content?
    ensures var c := paused.world;
            var s := Merge(Merge(paused.state, answer), map["feedback" := Str(c.stdin[1])]);
            Resume(Revised, paused, answer)
              == Run(Paused([HumanInLoopNode]), Merge(s, AnalysisFields(c.replies[0].text)),
                     paused.trace + [HumanInLoopNode, AnalyzeDatabaseNode],
                     Console(c.replies[1..], c.stdin[2..], c.asked + [AnalysisRequest(s)]))
  {
    var c := paused.world;
    var uh := map["feedback" := Str(c.stdin[1])];
    var s := Merge(Merge(paused.state, answer), uh);
    assert IsSet(s, "feedback");
    WiredRevisedFeedback(Revised, paused, answer, uh, c.(stdin := c.stdin[2..]),
                         AnalysisFields(c.replies[0].text),
                         Console(c.replies[1..], c.stdin[2..], c.asked + [AnalysisRequest(s)]));
  }

  /**
   * A revised resume on which the operator approves: the report is rendered
   * from the current analysis and the run completes.
   */
  lemma RevisedApprovalRound(paused: Run<Console>, answer: State)
    requires paused.status == Paused([HumanInLoopNode])
    requires var c := paused.world;
             c.stdin != [] && !Declines(c.stdin[0]) && c.replies != [] && c.replies[0].Content?
    ensures var c := paused.world;
            var s := Merge(Merge(paused.state, answer), map["feedback" := Str("")]);
            Resume(Revised, paused, answer)
              == Run(Completed, s, paused.trace + [HumanInLoopNode, CreateHumanReadableNode],
                     Console(c.replies[1..], c.stdin[1..], c.asked + [Render(Text(s, "analysis"))]))
  {
    var c := paused.world;
    var uh := map["feedback" := Str("")];
    var s := Merge(Merge(paused.state, answer), uh);
    assert !IsSet(s, "feedback") by {
      assert s["feedback"] == Str("");
    }
    assert Merge(s, map[]) == s;
    WiredRevisedApproval(Revised, paused, answer, uh, c.(stdin := c.stdin[1..]), map[],
                         Console(c.replies[1..], c.stdin[1..], c.asked + [Render(Text(s, "analysis"))]));
  }

  /** The answers of the repository's driver session: "no" declines and "yes" does not. */
  lemma DriverAnswers()
    ensures Declines("no") && !Declines("yes")
  {
    DeclinesIff("no");
    DeclinesIff("yes");
  }

  /** Analysing again after feedback leaves the state a fresh analysis of the input would have left. */
  lemma AnalysisRedone(input: State, a1: string, feedback: string, a2: string)
    ensures Merge(Merge(Merge(Merge(input, AnalysisFields(a1)), map[]), map["feedback" := Str(feedback)]), AnalysisFields(a2))
            == Merge(input, AnalysisFields(a2))
  {
  }

  /** Approving clears a feedback that analyze_database had already cleared, so the analysed state stands. */
  lemma ApprovalKeepsAnalysis(input: State, a: string)
    ensures Merge(Merge(Merge(input, AnalysisFields(a)), map[]), map["feedback" := Str("")]) == Merge(input, AnalysisFields(a))
    ensures Text(Merge(Merge(Merge(input, AnalysisFields(a)), map[]), map["feedback" := Str("")]), "analysis") == a
  {
    var s := Merge(Merge(Merge(input, AnalysisFields(a)), map[]), map["feedback" := Str("")]);
    assert s == Merge(input, AnalysisFields(a));
  }

  /** After the first analysis and the operator's feedback, the next prompt is a re-analysis carrying both. */
  lemma FeedbackReachesPrompt(input: State, a1: string, feedback: string)
    requires Text(input, "schema") != "" && a1 != "" && feedback != ""
    ensures AnalysisRequest(Merge(Merge(Merge(input, AnalysisFields(a1)), map[]), map["feedback" := Str(feedback)]))
            == Reanalysis(a1, Text(input, "query"), feedback, Text(input, "schema"))
  {
    var s1 := Merge(Merge(Merge(input, AnalysisFields(a1)), map[]), map["feedback" := Str(feedback)]);
    assert s1["analysis"] == Str(a1) && s1["feedback"] == Str(feedback);
    assert s1["schema"] == input["schema"];
    assert "query" in s1 <==> "query" in input;
    assert "query" in input ==> s1["query"] == input["query"];
  }

  /** The session's second call: the operator declines with feedback, and the re-analysis pauses again. */
  lemma SecondCallReanalyses(first: Run<Console>, input: State, c: Console)
    requires Text(input, "schema") != ""
    requires |c.replies| >= 2 && c.replies[1].Content? && c.replies[0].Content? && c.replies[0].text != ""
    requires |c.stdin| >= 2 && Declines(c.stdin[0]) && c.stdin[1] != ""
    requires first == Run(Paused([HumanInLoopNode]), Merge(input, AnalysisFields(c.replies[0].text)), [AnalyzeDatabaseNode],
                          Console(c.replies[1..], c.stdin, [AnalysisRequest(input)]))
    ensures Resume(Revised, first, map[])
              == Run(Paused([HumanInLoopNode]), Merge(input, AnalysisFields(c.replies[1].text)),
                     [AnalyzeDatabaseNode, HumanInLoopNode, AnalyzeDatabaseNode],
                     Console(c.replies[2..], c.stdin[2..],
                             [AnalysisRequest(input), Reanalysis(c.replies[0].text, Text(input, "query"), c.stdin[1], Text(input, "schema"))]))
  {
    var a1, a2 := c.replies[0].text, c.replies[1].text;
    RevisedFeedbackRound(first, map[]);
    FeedbackReachesPrompt(input, a1, c.stdin[1]);
    AnalysisRedone(input, a1, c.stdin[1], a2);
    assert c.replies[1..][1..] == c.replies[2..];
    var s := Merge(Merge(first.state, map[]), map["feedback" := Str(first.world.stdin[1])]);
    var r := Resume(Revised, first, map[]);
    assert r.status == Paused([HumanInLoopNode]);
    assert r.state == Merge(input, AnalysisFields(a2));
    assert r.trace == [AnalyzeDatabaseNode, HumanInLoopNode, AnalyzeDatabaseNode];
    assert r.world.replies == c.replies[2..];
    assert r.world.stdin == c.stdin[2..];
    assert AnalysisRequest(s) == Reanalysis(a1, Text(input, "query"), c.stdin[1], Text(input, "schema"));
    assert r.world.asked == [AnalysisRequest(input), Reanalysis(a1, Text(input, "query"), c.stdin[1], Text(input, "schema"))];
  }

  /** The session's third call: the operator approves, the report is rendered from the current analysis, and the run completes. */
  lemma ThirdCallCompletes(second: Run<Console>, input: State, a: string, trace: seq<string>, rest: seq<Llm.Reply>, stdin: seq<string>, asked: seq<Request>)
    requires |rest| >= 1 && rest[0].Content? && |stdin| >= 1 && !Declines(stdin[0])
    requires second == Run(Paused([HumanInLoopNode]), Merge(input, AnalysisFields(a)), trace, Console(rest, stdin, asked))
    ensures Resume(Revised, second, map[])
              == Run(Completed, Merge(input, AnalysisFields(a)), trace + [HumanInLoopNode, CreateHumanReadableNode],
                     Console(rest[1..], stdin[1..], asked + [Render(a)]))
  {
    RevisedApprovalRound(second, map[]);
    ApprovalKeepsAnalysis(input, a);
  }

  /** The session's first two calls: an analysis, then a re-analysis with the operator's feedback. */
  lemma FirstTwoCalls(input: State, c: Console)
    requires "analysis" !in input && Text(input, "schema") != "" && c.asked == []
    requires |c.replies| >= 2 && c.replies[0].Content? && c.replies[1].Content? && c.replies[0].text != ""
    requires |c.stdin| >= 2 && Declines(c.stdin[0]) && c.stdin[1] != ""
    ensures Invoke(Revised, input, c).status == Paused([HumanInLoopNode])
    ensures Resume(Revised, Invoke(Revised, input, c), map[])
              == Run(Paused([HumanInLoopNode]), Merge(input, AnalysisFields(c.replies[1].text)),
                     [AnalyzeDatabaseNode, HumanInLoopNode, AnalyzeDatabaseNode],
                     Console(c.replies[2..], c.stdin[2..],
                             [FirstAnalysis(Text(input, "query"), Text(input, "schema")),
                              Reanalysis(c.replies[0].text, Text(input, "query"), c.stdin[1], Text(input, "schema"))]))
  {
    RevisedFirstCall(input, c);
    assert c.asked + [AnalysisRequest(input)] == [AnalysisRequest(input)];
    SecondCallReanalyses(Invoke(Revised, input, c), input, c);
  }

  /**
   * A session shaped like the repository's driver: the operator declines,
   * types some feedback, then approves (the driver's "no", feedback line and
   * "yes", by DriverAnswers). With the revised wiring, analysis runs twice,
   * the second time with the first analysis and the feedback in its prompt,
   * and the run completes after the report is rendered from the second one.
   */
  lemma DeclineThenApprove(input: State, c: Console)
    requires "analysis" !in input && Text(input, "schema") != "" && c.asked == []
    requires |c.replies| >= 3 && c.replies[0].Content? && c.replies[1].Content? && c.replies[2].Content?
    requires c.replies[0].text != ""
    requires |c.stdin| >= 3 && Declines(c.stdin[0]) && c.stdin[1] != "" && !Declines(c.stdin[2])
    ensures Invoke(Revised, input, c).status == Paused([HumanInLoopNode])
    ensures Resume(Revised, Invoke(Revised, input, c), map[]).status == Paused([HumanInLoopNode])
    ensures Resume(Revised, Resume(Revised, Invoke(Revised, input, c), map[]), map[])
              == Run(Completed, Merge(input, AnalysisFields(c.replies[1].text)),
                     [AnalyzeDatabaseNode, HumanInLoopNode, AnalyzeDatabaseNode, HumanInLoopNode, CreateHumanReadableNode],
                     Console(c.replies[3..], c.stdin[3..],
                             [FirstAnalysis(Text(input, "query"), Text(input, "schema")),
                              Reanalysis(c.replies[0].text, Text(input, "query"), c.stdin[1], Text(input, "schema")),
                              Render(c.replies[1].text)]))
  {
    var query, schema := Text(input, "query"), Text(input, "schema");
    FirstTwoCalls(input, c);
    var second := Resume(Revised, Invoke(Revised, input, c), map[]);
    var trace2 := [AnalyzeDatabaseNode, HumanInLoopNode, AnalyzeDatabaseNode];
    var asked2 := [FirstAnalysis(query, schema), Reanalysis(c.replies[0].text, query, c.stdin[1], schema)];
    ThirdCallCompletes(second, input, c.replies[1].text, trace2, c.replies[2..], c.stdin[2..], asked2);
    assert trace2 + [HumanInLoopNode, CreateHumanReadableNode]
           == [AnalyzeDatabaseNode, HumanInLoopNode, AnalyzeDatabaseNode, HumanInLoopNode, CreateHumanReadableNode];
    assert asked2 + [Render(c.replies[1].text)]
           == [FirstAnalysis(query, schema), Reanalysis(c.replies[0].text, query, c.stdin[1], schema), Render(c.replies[1].text)];
    assert c.replies[2..][1..] == c.replies[3..];
    assert c.stdin[2..][1..] == c.stdin[3..];
  }
}
