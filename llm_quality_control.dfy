/**
  The content quality controller: one quality judge in a one-layer pipeline,
  and a bounded loop that evaluates content, stops on a `pass` verdict, and
  otherwise asks a writer model for an improved version and evaluates that.

  The two external steps are oracles. A `Judge` is `pipeline.run` on the
  evaluation of a given cycle (None when the run raised); a `Rewriter` is
  `generate_improved_content` on a given cycle (None when the chat call raised
  or produced no text). Both take the 0-based cycle number, so the same input
  may be judged or rewritten differently on different cycles.
*/
module QualityControl {
  import opened Wrappers
  import opened Addressing

  /** The verdict that ends the loop; any other string asks for a rewrite. */
  const Pass: string := "pass"

  const QualityJudge := JudgeUnit("QualityJudge", ["pass", "revise"], true)

  /** The key base the evaluator reads the quality judge's outputs from: `QualityControl_root.block.layer[0].unit[CategoricalJudge QualityJudge]`. */
  const BasePath: string := UnitBase("QualityControl", Some(0), "QualityJudge")
  const ChoiceKey: string := KeyFor("QualityControl", Some(0), "QualityJudge", Choice)
  const ExplanationKey: string := KeyFor("QualityControl", Some(0), "QualityJudge", Explanation)

  /** The literal pieces of the quality judge's keys. */
  lemma QualityKeyPieces()
    ensures "QualityControl" + "_root.block" == "QualityControl_root.block"
    ensures UnitSegment("QualityJudge") == ".unit[CategoricalJudge QualityJudge]"
  {
  }

  /** The keys spelled out: the base path `QualityControl_root.block.layer[0].unit[CategoricalJudge QualityJudge]`, then the field suffix. */
  lemma KeysSpelled()
    ensures BasePath == "QualityControl_root.block" + ".layer[0]" + ".unit[CategoricalJudge QualityJudge]"
    ensures ChoiceKey == BasePath + "_choice"
    ensures ExplanationKey == BasePath + "_explanation"
  {
    FirstLayerSegments();
    QualityKeyPieces();
    SpelledKeys("QualityControl", Some(0), "QualityJudge",
                "QualityControl_root.block", ".layer[0]", ".unit[CategoricalJudge QualityJudge]");
  }

  /** The record `pipeline.run` is given: `Schema.of(content, requirements, content_type)`. */
  datatype QualityInput = QualityInput(content: string, requirements: string, contentType: string)

  /** The dictionary `evaluate_content` returns. */
  datatype Evaluation = Evaluation(verdict: string, explanation: string, content: string)

  type Judge = (nat, QualityInput) -> Option<ResultMap>
  type Rewriter = (nat, string, string) -> Option<string>

  /** What `improve_content` ends with: a returned value, or the `UnboundLocalError` of `return result` when no cycle ran. */
  datatype Improvement = Returned(value: Option<Evaluation>) | UnboundResult

  /**
    One run of the loop as observed from outside: how it ended, the content
    handed to each evaluation, and the (content, feedback) pair handed to each
    regeneration, in call order.
  */
  datatype Trace = Trace(outcome: Improvement, evaluated: seq<string>, requests: seq<(string, string)>)

  /** Python truthiness of the regenerated text: neither None nor empty. */
  predicate Truthy(text: Option<string>)
  {
    text.Some? && text.value != ""
  }

  /** How one pass of the loop body ends. */
  datatype CycleEnd =
    | EvaluationFailed                              // `evaluate_content` gave None
    | Passed(evaluation: Evaluation)                // the verdict was `pass`
    | RewriteFailed(evaluation: Evaluation)         // the regeneration gave no text
    | Rewrote(evaluation: Evaluation, improved: string)

  /** Whether a cycle went on to ask for a regeneration. */
  predicate Revising(end: CycleEnd)
  {
    end.RewriteFailed? || end.Rewrote?
  }

  /** One pass of the loop body, as a function of the 0-based cycle number and the content it evaluates. */
  type Step = (nat, string) -> CycleEnd

  /** The rewriter produces non-empty text on every call. */
  ghost predicate AlwaysRewrites(rewrite: Rewriter)
  {
    forall cycle: nat, text: string, feedback: string :: Truthy(rewrite(cycle, text, feedback))
  }

  /** Prefixes the calls of earlier cycles to the trace of the remaining ones. */
  function Prepend(evaluated: seq<string>, requests: seq<(string, string)>, rest: Trace): Trace
  {
    Trace(rest.outcome, evaluated + rest.evaluated, requests + rest.requests)
  }

  /** The number of cycles left at the top of cycle `iterations` (none once the budget is reached or when it is not positive). */
  function Budget(maxIterations: int, iterations: nat): nat
  {
    if iterations < maxIterations then maxIterations - iterations else 0
  }

  /**
    The loop `while iterations < max_iterations` from the top of cycle
    `iterations` on, with `current` the content to evaluate next and `result`
    the last evaluation (None while the variable is still unbound); `step` is
    what one pass of the body does.
  */
  function Refine(maxIterations: int, step: Step, iterations: nat, current: string, result: Option<Evaluation>): Trace
    decreases Budget(maxIterations, iterations)
  {
    if iterations >= maxIterations then
      Trace(if result.Some? then Returned(result) else UnboundResult, [], [])
    else
      match step(iterations, current)
      case EvaluationFailed => Trace(Returned(None), [current], [])
      case Passed(evaluation) => Trace(Returned(Some(evaluation)), [current], [])
      case RewriteFailed(evaluation) => Trace(Returned(None), [current], [(current, evaluation.explanation)])
      case Rewrote(evaluation, improved) =>
        Prepend([current], [(current, evaluation.explanation)],
                Refine(maxIterations, step, iterations + 1, improved, Some(evaluation)))
  }

  /**
    From cycle `i` on: no more evaluations than the budget left, at least one
    when any is left and the first of them on the current content, and a
    regeneration after every evaluation but possibly the last.
  */
  lemma {:induction false} RefineCounts(maxIterations: int, step: Step, i: nat, current: string, result: Option<Evaluation>)
    ensures var t := Refine(maxIterations, step, i, current, result);
            && |t.requests| <= |t.evaluated| <= |t.requests| + 1
            && |t.evaluated| <= Budget(maxIterations, i)
            && (i < maxIterations ==> |t.evaluated| >= 1 && t.evaluated[0] == current)
    decreases Budget(maxIterations, i)
  {
    if i < maxIterations && step(i, current).Rewrote? {
      RefineCounts(maxIterations, step, i + 1, step(i, current).improved, Some(step(i, current).evaluation));
    }
  }

  /** The `k`-th regeneration from cycle `i` on follows a revising cycle and is fed the content that cycle judged and its feedback. */
  lemma {:induction false} RefineRequestAt(maxIterations: int, step: Step, i: nat, current: string, result: Option<Evaluation>, k: nat)
    requires k < |Refine(maxIterations, step, i, current, result).requests|
    ensures var t := Refine(maxIterations, step, i, current, result);
            && k < |t.evaluated|
            && Revising(step(i + k, t.evaluated[k]))
            && t.requests[k] == (t.evaluated[k], step(i + k, t.evaluated[k]).evaluation.explanation)
    decreases k
  {
    if k > 0 {
      var end := step(i, current);
      var t := Refine(maxIterations, step, i, current, result);
      var rest := Refine(maxIterations, step, i + 1, end.improved, Some(end.evaluation));
      RefineRequestAt(maxIterations, step, i + 1, end.improved, Some(end.evaluation), k - 1);
      assert t.evaluated[k] == rest.evaluated[k - 1] && t.requests[k] == rest.requests[k - 1];
      assert i + k == (i + 1) + (k - 1);
    }
  }

  /** The evaluation after the `k`-th one from cycle `i` on is of the text the `k`-th cycle's regeneration produced. */
  lemma {:induction false} RefineNextAt(maxIterations: int, step: Step, i: nat, current: string, result: Option<Evaluation>, k: nat)
    requires k + 1 < |Refine(maxIterations, step, i, current, result).evaluated|
    ensures var t := Refine(maxIterations, step, i, current, result);
            && step(i + k, t.evaluated[k]).Rewrote?
            && step(i + k, t.evaluated[k]).improved == t.evaluated[k + 1]
    decreases k
  {
    var end := step(i, current);
    var t := Refine(maxIterations, step, i, current, result);
    var rest := Refine(maxIterations, step, i + 1, end.improved, Some(end.evaluation));
    if k > 0 {
      RefineNextAt(maxIterations, step, i + 1, end.improved, Some(end.evaluation), k - 1);
      assert t.evaluated[k + 1] == rest.evaluated[k] && t.evaluated[k] == rest.evaluated[k - 1];
      assert i + k == (i + 1) + (k - 1);
    } else {
      RefineCounts(maxIterations, step, i + 1, end.improved, Some(end.evaluation));
    }
  }

  /**
    How a run from cycle `i` ends, read off its last cycle: a failed
    evaluation or a failed regeneration ends it with None, a passing one with
    that evaluation, and a regeneration that produced text ends it only when
    the budget is spent, with the evaluation of that last cycle. A run with no
    cycle left ends with the evaluation it already had, or with the
    unbound-variable error when it has none.
  */
  lemma {:induction false} RefineOutcome(maxIterations: int, step: Step, i: nat, current: string, result: Option<Evaluation>)
    ensures var t := Refine(maxIterations, step, i, current, result);
            var n := |t.evaluated|;
            && (n == 0 <==> i >= maxIterations)
            && (n == 0 ==> t.outcome == if result.Some? then Returned(result) else UnboundResult)
            && (n > 0 ==>
                  var last := step(i + n - 1, t.evaluated[n - 1]);
                  && (last.EvaluationFailed? ==> t.outcome == Returned(None) && |t.requests| == n - 1)
                  && (last.Passed? ==> t.outcome == Returned(Some(last.evaluation)) && |t.requests| == n - 1)
                  && (last.RewriteFailed? ==> t.outcome == Returned(None) && |t.requests| == n)
                  && (last.Rewrote? ==> t.outcome == Returned(Some(last.evaluation)) && |t.requests| == n && i + n == maxIterations))
    decreases Budget(maxIterations, i)
  {
    if i < maxIterations && step(i, current).Rewrote? {
      var end := step(i, current);
      var t := Refine(maxIterations, step, i, current, result);
      var rest := Refine(maxIterations, step, i + 1, end.improved, Some(end.evaluation));
      RefineOutcome(maxIterations, step, i + 1, end.improved, Some(end.evaluation));
      var n := |t.evaluated|;
      if n > 1 {
        assert t.evaluated[n - 1] == rest.evaluated[n - 2];
        assert i + n - 1 == (i + 1) + (n - 1) - 1;
      }
    }
  }

  /** When every cycle regenerates successfully, the loop runs the whole budget: as many evaluations as regenerations as cycles left. */
  lemma {:induction false} RefineExhausts(maxIterations: int, step: Step, i: nat, current: string, result: Option<Evaluation>)
    requires forall cycle, content :: step(cycle, content).Rewrote?
    ensures var t := Refine(maxIterations, step, i, current, result);
            |t.evaluated| == |t.requests| == Budget(maxIterations, i)
    decreases Budget(maxIterations, i)
  {
    if i < maxIterations {
      var end := step(i, current);
      RefineExhausts(maxIterations, step, i + 1, end.improved, Some(end.evaluation));
    }
  }

  lemma PrependTwice(e1: seq<string>, r1: seq<(string, string)>, e2: seq<string>, r2: seq<(string, string)>, rest: Trace)
    ensures Prepend(e1, r1, Prepend(e2, r2, rest)) == Prepend(e1 + e2, r1 + r2, rest)
  {
  }

  /** `ContentQualityControl`: its content type and its iteration budget (any Python int). */
  datatype ContentQualityControl = ContentQualityControl(contentType: string, maxIterations: int)
  {
    /** `create_pipeline`: a single layer holding the quality judge, which labels content `pass` or `revise` and explains itself. */
    function CreatePipeline(): (p: Pipeline)
      ensures p.name == "QualityControl" && p.stages == [Layer([QualityJudge])]
      ensures QualityJudge.categories == [Pass, "revise"] && QualityJudge.explanation
    {
      Then(Pipeline("QualityControl", []), Layer([QualityJudge]))
    }

    /**
      `evaluate_content`: runs the pipeline on the content and reads the judge's
      verdict and explanation; None when the run raised or either is missing
      or empty, otherwise both together with the content that was evaluated.
    */
    function EvaluateContent(content: string, requirements: string, run: QualityInput -> Option<ResultMap>): (r: Option<Evaluation>)
      ensures r.Some? <==> (run(QualityInput(content, requirements, contentType)).Some?
                            && Get(run(QualityInput(content, requirements, contentType)).value, ChoiceKey) != ""
                            && Get(run(QualityInput(content, requirements, contentType)).value, ExplanationKey) != "")
      ensures r.Some? ==> && r.value.verdict == Get(run(QualityInput(content, requirements, contentType)).value, ChoiceKey)
                          && r.value.explanation == Get(run(QualityInput(content, requirements, contentType)).value, ExplanationKey)
                          && r.value.content == content
    {
      match run(QualityInput(content, requirements, contentType))
      case None => None
      case Some(result) =>
        var verdict := Get(result, BasePath + Suffix(Choice));
        var explanation := Get(result, BasePath + Suffix(Explanation));
        if verdict == "" || explanation == "" then None
        else Some(Evaluation(verdict, explanation, content))
    }

    /** The keys the evaluator reads are those the addressing scheme gives the one unit of the pipeline's one layer. */
    lemma QualityJudgeAddressed()
      ensures |CreatePipeline().stages| == 1 && CreatePipeline().stages[0] == Layer([QualityJudge])
      ensures ChoiceKey == StageKey(CreatePipeline(), 0, QualityJudge, Choice)
      ensures ExplanationKey == StageKey(CreatePipeline(), 0, QualityJudge, Explanation)
      ensures ChoiceKey != ExplanationKey
    {
    }

    /** The evaluation of cycle `cycle` (0-based) of the refinement loop. */
    function EvaluationAt(cycle: nat, content: string, requirements: string, judge: Judge): Option<Evaluation>
    {
      EvaluateContent(content, requirements, q => judge(cycle, q))
    }

    /** One pass of the loop body on cycle `cycle`: evaluate, stop on `pass`, otherwise regenerate from the feedback. */
    function CycleAt(requirements: string, judge: Judge, rewrite: Rewriter, cycle: nat, current: string): CycleEnd
    {
      var evaluation := EvaluationAt(cycle, current, requirements, judge);
      if evaluation.None? then EvaluationFailed
      else if evaluation.value.verdict == Pass then Passed(evaluation.value)
      else
        var improved := rewrite(cycle, current, evaluation.value.explanation);
        if !Truthy(improved) then RewriteFailed(evaluation.value)
        else Rewrote(evaluation.value, improved.value)
    }

    /** The loop body as a step of `Refine`. */
    function Cycles(requirements: string, judge: Judge, rewrite: Rewriter): Step
    {
      (cycle: nat, current: string) => CycleAt(requirements, judge, rewrite, cycle, current)
    }

    /** The whole loop, started on `content`. */
    function Improve(content: string, requirements: string, judge: Judge, rewrite: Rewriter): Trace
    {
      Refine(maxIterations, Cycles(requirements, judge, rewrite), 0, content, None)
    }

    /**
      `improve_content`. The ghost outputs record the calls made to the two
      oracles; the whole run agrees with `Improve`, whose properties are the
      lemmas below.
    */
    method ImproveContent(content: string, requirements: string, judge: Judge, rewrite: Rewriter)
      returns (outcome: Improvement, ghost evaluated: seq<string>, ghost requests: seq<(string, string)>)
      ensures outcome == Improve(content, requirements, judge, rewrite).outcome
      ensures evaluated == Improve(content, requirements, judge, rewrite).evaluated
      ensures requests == Improve(content, requirements, judge, rewrite).requests
    {
      ghost var step := Cycles(requirements, judge, rewrite);
      var iterations: nat := 0;
      var currentContent := content;
      var result: Option<Evaluation> := None;
      evaluated, requests := [], [];
      while iterations < maxIterations
        invariant |evaluated| == iterations
        invariant Improve(content, requirements, judge, rewrite)
                  == Prepend(evaluated, requests, Refine(maxIterations, step, iterations, currentContent, result))
        decreases maxIterations - iterations
      {
        var cycle := iterations;
        iterations := iterations + 1;
        result := EvaluationAt(cycle, currentContent, requirements, judge);
        if result.None? {
          outcome := Returned(None);
          evaluated := evaluated + [currentContent];
          return;
        }
        if result.value.verdict == Pass {
          outcome := Returned(result);
          evaluated := evaluated + [currentContent];
          return;
        }
        var improved := rewrite(cycle, currentContent, result.value.explanation);
        ghost var request := (currentContent, result.value.explanation);
        if !Truthy(improved) {
          outcome := Returned(None);
          evaluated, requests := evaluated + [currentContent], requests + [request];
          return;
        }
        PrependTwice(evaluated, requests, [currentContent], [request],
                     Refine(maxIterations, step, iterations, improved.value, result));
        evaluated, requests := evaluated + [currentContent], requests + [request];
        currentContent := improved.value;
      }
      outcome := if result.Some? then Returned(result) else UnboundResult;
    }

    // -------------------------------------------------------------------------
    // Properties of the loop, in terms of the judge and the rewriter
    // -------------------------------------------------------------------------

    /**
      The calls the loop makes: at most `max_iterations` evaluations, the
      first on the input; a regeneration follows every evaluation but possibly
      the last, and only an evaluation that succeeded with a verdict other
      than `pass`; it is fed the content just evaluated and that evaluation's
      explanation; and every later evaluation is of the text the previous
      regeneration returned.
    */
    lemma ImproveCalls(content: string, requirements: string, judge: Judge, rewrite: Rewriter)
      ensures var t := Improve(content, requirements, judge, rewrite);
              && |t.evaluated| <= Budget(maxIterations, 0)
              && |t.requests| <= |t.evaluated| <= |t.requests| + 1
              && (maxIterations >= 1 ==> |t.evaluated| >= 1 && t.evaluated[0] == content)
              && (forall k :: 0 <= k < |t.requests| ==>
                    var e := EvaluationAt(k, t.evaluated[k], requirements, judge);
                    e.Some? && e.value.verdict != Pass && t.requests[k] == (t.evaluated[k], e.value.explanation))
              && (forall k :: 0 <= k < |t.evaluated| - 1 ==>
                    var text := rewrite(k, t.requests[k].0, t.requests[k].1);
                    Truthy(text) && t.evaluated[k + 1] == text.value)
    {
      var step := Cycles(requirements, judge, rewrite);
      var t := Improve(content, requirements, judge, rewrite);
      RefineCounts(maxIterations, step, 0, content, None);
      forall k | 0 <= k < |t.requests|
        ensures var e := EvaluationAt(k, t.evaluated[k], requirements, judge);
                e.Some? && e.value.verdict != Pass && t.requests[k] == (t.evaluated[k], e.value.explanation)
      {
        RefineRequestAt(maxIterations, step, 0, content, None, k);
      }
      forall k | 0 <= k < |t.evaluated| - 1
        ensures var text := rewrite(k, t.requests[k].0, t.requests[k].1);
                Truthy(text) && t.evaluated[k + 1] == text.value
      {
        RefineRequestAt(maxIterations, step, 0, content, None, k);
        RefineNextAt(maxIterations, step, 0, content, None, k);
      }
    }

    /**
      How the loop ends. `UnboundLocalError` exactly when `max_iterations` is
      not positive, and then nothing was called. Otherwise the last
      evaluation decides: None when it failed, with no regeneration in that
      cycle; that very evaluation, carrying the content it judged, on `pass`;
      after any other verdict a regeneration from that content and feedback,
      then None when it produced no text (on the final cycle too), and
      otherwise the loop stopped because the budget was spent, returning the
      last, non-passing evaluation of the last content evaluated.
    */
    lemma ImproveOutcome(content: string, requirements: string, judge: Judge, rewrite: Rewriter)
      ensures var t := Improve(content, requirements, judge, rewrite);
              var n := |t.evaluated|;
              && (t.outcome == UnboundResult <==> maxIterations <= 0)
              && (maxIterations <= 0 ==> t.evaluated == [] && t.requests == [])
              && (n > 0 ==>
                    var last := EvaluationAt(n - 1, t.evaluated[n - 1], requirements, judge);
                    && (last.None? ==> t.outcome == Returned(None) && |t.requests| == n - 1)
                    && (last.Some? && last.value.verdict == Pass ==>
                          && t.outcome == Returned(last)
                          && last.value.content == t.evaluated[n - 1]
                          && |t.requests| == n - 1)
                    && (last.Some? && last.value.verdict != Pass ==>
                          && |t.requests| == n
                          && t.requests[n - 1] == (t.evaluated[n - 1], last.value.explanation)
                          && var text := rewrite(n - 1, t.evaluated[n - 1], last.value.explanation);
                          && (!Truthy(text) ==> t.outcome == Returned(None))
                          && (Truthy(text) ==>
                                && t.outcome == Returned(last)
                                && last.value.content == t.evaluated[n - 1]
                                && n == maxIterations)))
    {
      var step := Cycles(requirements, judge, rewrite);
      var t := Improve(content, requirements, judge, rewrite);
      var n := |t.evaluated|;
      RefineOutcome(maxIterations, step, 0, content, None);
      RefineCounts(maxIterations, step, 0, content, None);
      if n > 0 && |t.requests| == n {
        RefineRequestAt(maxIterations, step, 0, content, None, n - 1);
      }
    }

    /** The judge sends back every content on every cycle with a verdict other than `pass`. */
    ghost predicate AlwaysRevises(requirements: string, judge: Judge)
    {
      forall cycle: nat, content: string ::
        var e := EvaluationAt(cycle, content, requirements, judge);
        e.Some? && e.value.verdict != Pass
    }

    /**
      With a judge that never passes and a rewriter that always produces text,
      the loop regenerates on the final cycle as well: it makes exactly
      `max_iterations` evaluations and as many regenerations, and returns the
      evaluation of the final cycle, which carries the content evaluated then
      rather than the text regenerated from it.
    */
    lemma ImproveExhausts(content: string, requirements: string, judge: Judge, rewrite: Rewriter)
      requires AlwaysRevises(requirements, judge) && AlwaysRewrites(rewrite)
      requires maxIterations >= 1
      ensures var t := Improve(content, requirements, judge, rewrite);
              var n := maxIterations;
              && |t.evaluated| == n && |t.requests| == n
              && var last := EvaluationAt(n - 1, t.evaluated[n - 1], requirements, judge);
              && t.outcome == Returned(last)
              && last.Some? && last.value.verdict != Pass
              && last.value.content == t.evaluated[n - 1] == t.requests[n - 1].0
    {
      var step := Cycles(requirements, judge, rewrite);
      forall cycle: nat, current: string
        ensures step(cycle, current).Rewrote?
      {
        var e := EvaluationAt(cycle, current, requirements, judge);
        assert e.Some? && e.value.verdict != Pass;
        assert Truthy(rewrite(cycle, current, e.value.explanation));
      }
      RefineExhausts(maxIterations, step, 0, content, None);
      ImproveOutcome(content, requirements, judge, rewrite);
    }

    /**
      A judge that asks for a revision on the first cycle and passes whatever
      it sees on the second: two evaluations, one regeneration, and the
      passing evaluation returned carries the regenerated text.
    */
    lemma ImproveRevisesThenPasses(content: string, requirements: string, judge: Judge, rewrite: Rewriter)
      requires maxIterations >= 2
      requires var first := EvaluationAt(0, content, requirements, judge);
               first.Some? && first.value.verdict != Pass && Truthy(rewrite(0, content, first.value.explanation))
      requires forall text: string :: var e := EvaluationAt(1, text, requirements, judge); e.Some? && e.value.verdict == Pass
      ensures var t := Improve(content, requirements, judge, rewrite);
              var feedback := EvaluationAt(0, content, requirements, judge).value.explanation;
              var improved := rewrite(0, content, feedback).value;
              && t.evaluated == [content, improved]
              && t.requests == [(content, feedback)]
              && t.outcome == Returned(EvaluationAt(1, improved, requirements, judge))
              && t.outcome.value.value.verdict == Pass
              && t.outcome.value.value.content == improved
    {
      var step := Cycles(requirements, judge, rewrite);
      var first := EvaluationAt(0, content, requirements, judge).value;
      var improved := rewrite(0, content, first.explanation).value;
      var second := EvaluationAt(1, improved, requirements, judge);
      assert step(0, content) == Rewrote(first, improved);
      assert step(1, improved) == Passed(second.value);
      assert Refine(maxIterations, step, 1, improved, Some(first)) == Trace(Returned(second), [improved], []);
    }
  }
}
