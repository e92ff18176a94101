/** The ONNX libraries as the export script uses them: graphs are opaque
    values, and the simplifier and optimizer are black boxes that either
    return a result or raise. On top of that vocabulary, the script's repair
    policy: keep the simplified graph only when the whole repair unit
    succeeded. */
module Onnx {
  import opened Wrappers

  /** An ONNX model in memory; its contents are not modelled. */
  datatype Graph = Graph(handle: nat)

  /** `onnxsim.simplify(model)`: raises, or returns a graph and a check flag. */
  datatype SimplifyOutcome = SimplifyRaised | Simplified(model: Graph, check: bool)

  /** `onnxoptimizer.optimize(model)`: raises, or returns a graph. */
  datatype OptimizeOutcome = OptimizeRaised | Optimized(model: Graph)

  /** The graph that the repair unit writes back over the exported file, or
      None when the unit is abandoned: the simplifier raised, its check flag is
      false, or the optimizer raised. The optimizer's graph is never the one
      kept. */
  function RepairedGraph(exported: Graph, simplify: Graph -> SimplifyOutcome,
                         optimize: Graph -> OptimizeOutcome): (r: Option<Graph>)
    ensures r.Some? <==>
      && simplify(exported).Simplified?
      && simplify(exported).check
      && optimize(simplify(exported).model).Optimized?
    ensures r.Some? ==> r.value == simplify(exported).model
  {
    match simplify(exported)
    case SimplifyRaised => None
    case Simplified(simplified, check) =>
      if !check then None
      else
        match optimize(simplified)
        case OptimizeRaised => None
        case Optimized(_) => Some(simplified)
  }

  /** Only whether the optimizer raises matters: two optimizers that succeed
      and fail on the same graphs lead to the same repaired graph, whatever
      graphs they return. */
  lemma OptimizerResultDiscarded(exported: Graph, simplify: Graph -> SimplifyOutcome,
                                 opt1: Graph -> OptimizeOutcome, opt2: Graph -> OptimizeOutcome)
    requires forall g :: opt1(g).Optimized? == opt2(g).Optimized?
    ensures RepairedGraph(exported, simplify, opt1) == RepairedGraph(exported, simplify, opt2)
  {
  }
}
