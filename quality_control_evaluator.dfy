/**
  The meta-evaluator: a two-stage pipeline that audits an earlier quality
  control decision. Stage 0 (`MetaJudge`) rates the decision's reliability;
  stage 1 (`FailureAnalyzer`) always runs after it and classifies the failure
  pattern. The caller reads both units' outputs with `''` as the default for
  a missing key, and shows the failure analysis only when the rating is not
  `reliable`.

  `pipeline.run` is an oracle from the input record to the result map, None
  when it raised.
*/
module QcEvaluator {
  import opened Wrappers
  import opened Addressing

  const MetaJudge := JudgeUnit("MetaJudge", ["reliable", "questionable", "failure"], true)
  const FailureAnalyzer := JudgeUnit("FailureAnalyzer", ["systematic", "contextual", "random"], true)

  /** The rating under which the failure analysis is not shown. */
  const Reliable: string := "reliable"

  /** Keys under `QCEvaluator_root.block.layer`: `[0]` for the meta judge, `[1]` for the failure analyzer. */
  const MetaChoiceKey: string := KeyFor("QCEvaluator", Some(0), "MetaJudge", Choice)
  const MetaExplanationKey: string := KeyFor("QCEvaluator", Some(0), "MetaJudge", Explanation)
  const FailureChoiceKey: string := KeyFor("QCEvaluator", Some(1), "FailureAnalyzer", Choice)
  const FailureExplanationKey: string := KeyFor("QCEvaluator", Some(1), "FailureAnalyzer", Explanation)

  /** The literal pieces of the four keys. */
  lemma EvaluatorKeyPieces()
    ensures "QCEvaluator" + "_root.block" == "QCEvaluator_root.block"
    ensures UnitSegment("MetaJudge") == ".unit[CategoricalJudge MetaJudge]"
    ensures UnitSegment("FailureAnalyzer") == ".unit[CategoricalJudge FailureAnalyzer]"
  {
  }

  /** The four keys spelled out segment by segment. */
  lemma KeysSpelled()
    ensures MetaChoiceKey == "QCEvaluator_root.block" + ".layer[0]" + ".unit[CategoricalJudge MetaJudge]" + "_choice"
    ensures MetaExplanationKey == "QCEvaluator_root.block" + ".layer[0]" + ".unit[CategoricalJudge MetaJudge]" + "_explanation"
    ensures FailureChoiceKey == "QCEvaluator_root.block" + ".layer[1]" + ".unit[CategoricalJudge FailureAnalyzer]" + "_choice"
    ensures FailureExplanationKey == "QCEvaluator_root.block" + ".layer[1]" + ".unit[CategoricalJudge FailureAnalyzer]" + "_explanation"
  {
    FirstLayerSegments();
    EvaluatorKeyPieces();
    SpelledKeys("QCEvaluator", Some(0), "MetaJudge",
                "QCEvaluator_root.block", ".layer[0]", ".unit[CategoricalJudge MetaJudge]");
    SpelledKeys("QCEvaluator", Some(1), "FailureAnalyzer",
                "QCEvaluator_root.block", ".layer[1]", ".unit[CategoricalJudge FailureAnalyzer]");
  }

  /** The record `pipeline.run` is given. */
  datatype QcInput = QcInput(content: string, qcAssessment: string, qcDecision: string, requirements: string)

  datatype MetaEvaluation = MetaEvaluation(verdict: string, explanation: string)
  datatype FailureAnalysis = FailureAnalysis(kind: string, explanation: string)

  /** The nested dictionary `evaluate_qc_system` returns. */
  datatype QcReport = QcReport(metaEvaluation: MetaEvaluation, failureAnalysis: FailureAnalysis)

  /**
    `create_evaluation_pipeline`: the meta judge's layer, then the failure
    analyzer's; the meta judge rates reliability, the analyzer classifies the
    failure, and both explain themselves.
  */
  function CreateEvaluationPipeline(): (p: Pipeline)
    ensures p.name == "QCEvaluator" && p.stages == [Layer([MetaJudge]), Layer([FailureAnalyzer])]
    ensures MetaJudge.categories == [Reliable, "questionable", "failure"] && MetaJudge.explanation
    ensures FailureAnalyzer.categories == ["systematic", "contextual", "random"] && FailureAnalyzer.explanation
  {
    Then(Then(Pipeline("QCEvaluator", []), Layer([MetaJudge])), Layer([FailureAnalyzer]))
  }

  /**
    The pipeline has both stages, meta judge first, with nothing between them
    that could skip the second; the four keys the evaluator reads are the
    ones the addressing scheme gives their units, and they are pairwise
    distinct.
  */
  lemma EvaluationPipelineAddressed()
    ensures var p := CreateEvaluationPipeline();
            && p.stages == [Layer([MetaJudge]), Layer([FailureAnalyzer])]
            && MetaChoiceKey == StageKey(p, 0, MetaJudge, Choice)
            && MetaExplanationKey == StageKey(p, 0, MetaJudge, Explanation)
            && FailureChoiceKey == StageKey(p, 1, FailureAnalyzer, Choice)
            && FailureExplanationKey == StageKey(p, 1, FailureAnalyzer, Explanation)
    ensures |{MetaChoiceKey, MetaExplanationKey, FailureChoiceKey, FailureExplanationKey}| == 4
  {
  }

  /**
    `evaluate_qc_system`: None exactly when the run raised; otherwise a report
    with both sections, each field the value under its unit's key or `''`
    when that key is missing.
  */
  function EvaluateQcSystem(content: string, qcAssessment: string, qcDecision: string, requirements: string,
                            run: QcInput -> Option<ResultMap>): (r: Option<QcReport>)
    ensures r.None? <==> run(QcInput(content, qcAssessment, qcDecision, requirements)).None?
    ensures r.Some? ==>
              var m := run(QcInput(content, qcAssessment, qcDecision, requirements)).value;
              var p := CreateEvaluationPipeline();
              && r.value.metaEvaluation == MetaEvaluation(Get(m, StageKey(p, 0, MetaJudge, Choice)),
                                                          Get(m, StageKey(p, 0, MetaJudge, Explanation)))
              && r.value.failureAnalysis == FailureAnalysis(Get(m, StageKey(p, 1, FailureAnalyzer, Choice)),
                                                            Get(m, StageKey(p, 1, FailureAnalyzer, Explanation)))
  {
    EvaluationPipelineAddressed();
    match run(QcInput(content, qcAssessment, qcDecision, requirements))
    case None => None
    case Some(result) =>
      Some(QcReport(MetaEvaluation(Get(result, MetaChoiceKey), Get(result, MetaExplanationKey)),
                    FailureAnalysis(Get(result, FailureChoiceKey), Get(result, FailureExplanationKey))))
  }

  /** The display rule of `main`: the failure analysis is shown unless the rating is exactly `reliable`. */
  predicate ShowsFailureAnalysis(report: QcReport)
  {
    report.metaEvaluation.verdict != Reliable
  }

  /**
    Whatever the run returned, a report is produced, and its failure analysis
    is shown exactly when the meta judge's stored rating is not `reliable`;
    in particular when that rating is missing, since it then reads as `''`.
  */
  lemma FailureAnalysisShownUnlessReliable(content: string, qcAssessment: string, qcDecision: string, requirements: string,
                                           run: QcInput -> Option<ResultMap>)
    requires run(QcInput(content, qcAssessment, qcDecision, requirements)).Some?
    ensures var m := run(QcInput(content, qcAssessment, qcDecision, requirements)).value;
            var r := EvaluateQcSystem(content, qcAssessment, qcDecision, requirements, run);
            && r.Some?
            && (ShowsFailureAnalysis(r.value) <==> (MetaChoiceKey !in m || m[MetaChoiceKey] != Reliable))
            && (MetaChoiceKey !in m ==> ShowsFailureAnalysis(r.value) && r.value.metaEvaluation.verdict == "")
  {
  }

  /**
    The report depends on the result map only through the four keys: two
    runs that agree on them give the same report, whatever else they hold.
  */
  lemma ReportReadsOnlyItsKeys(content: string, qcAssessment: string, qcDecision: string, requirements: string,
                               run1: QcInput -> Option<ResultMap>, run2: QcInput -> Option<ResultMap>)
    requires run1(QcInput(content, qcAssessment, qcDecision, requirements)).Some?
    requires run2(QcInput(content, qcAssessment, qcDecision, requirements)).Some?
    requires var m1 := run1(QcInput(content, qcAssessment, qcDecision, requirements)).value;
             var m2 := run2(QcInput(content, qcAssessment, qcDecision, requirements)).value;
             forall key :: key in {MetaChoiceKey, MetaExplanationKey, FailureChoiceKey, FailureExplanationKey} ==>
               Get(m1, key) == Get(m2, key)
    ensures EvaluateQcSystem(content, qcAssessment, qcDecision, requirements, run1)
            == EvaluateQcSystem(content, qcAssessment, qcDecision, requirements, run2)
  {
  }
}
