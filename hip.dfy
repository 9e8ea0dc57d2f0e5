/**
 * hip.py: a standalone script holding its own copy of the performer graph
 * (its node functions, routing function and wiring repeat those of
 * performer/performer.py line for line) and its own copy of
 * save_sql_queries (the same code as in utils/sql_utils.py). The shared code
 * is modelled once, in Performer and SqlUtils; this module builds the graph
 * hip.py compiles and states that it is, and behaves as, the performer graph.
 */
module Hip {
  import opened Workflow
  import Performer
  import SqlUtils

  /** The graph hip.py builds and compiles, with the pause before human_in_loop. */
  const HipGraph := Graph(
    {"analyze_database", "human_in_loop", "create_human_readable"},
    "analyze_database",
    map["analyze_database" := [To("human_in_loop"), To("create_human_readable")],
        "create_human_readable" := [End]],
    map["human_in_loop" := [To("analyze_database"), To("create_human_readable")]],
    {"human_in_loop"})

  const HipMachine := Machine(HipGraph, Performer.PerformerNode, Performer.ShouldContinue)

  /** hip.py compiles the same graph as the performer, over the same node and routing functions. */
  lemma SameAsPerformer()
    ensures HipGraph == Performer.DeclaredGraph
    ensures HipMachine == Performer.Declared
  {
  }

  /**
   * So it shares the performer's wiring problems: its first call pauses with
   * create_human_readable due alongside human_in_loop, and a resume has two
   * nodes due at once.
   */
  lemma FirstCallPausesBeforeBoth(input: State, c: Performer.Console)
    requires c.replies != [] && c.replies[0].Content?
    ensures Invoke(HipMachine, input, c).status == Paused(["human_in_loop", "create_human_readable"])
    ensures Resume(HipMachine, Invoke(HipMachine, input, c), map[]).status
              == Failed(FanOut(["human_in_loop", "create_human_readable"]))
  {
    SameAsPerformer();
    Performer.DeclaredFirstCallPausesBeforeBoth(input, c);
    Performer.DeclaredResumeFansOut(Invoke(HipMachine, input, c), map[]);
  }

  /**
   * hip.py's save_sql_queries numbers the blocks from 1: the file holds the
   * sections of the blocks before block `k`, then block `k` under the header
   * "-- Query k+1", then the sections of the blocks after it.
   */
  lemma SavedNumbersFromOne(content: string, k: nat)
    requires k < |SqlUtils.Blocks(content)|
    ensures var bodies := SqlUtils.Blocks(content);
            SqlUtils.Saved(content)
              == SqlUtils.Rendered(bodies[..k], 1) + SqlUtils.Section(k + 1, bodies[k]) + SqlUtils.Rendered(bodies[k + 1..], k + 2)
  {
    SqlUtils.RenderedSplit(SqlUtils.Blocks(content), 1, k);
  }
}
