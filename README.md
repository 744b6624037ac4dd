# Verified model of hack-verdict's quality-control loop

hack-verdict has three scripts built on the `verdict` judge-pipeline
library. This project models their core:

- `ContentQualityControl` (`llm_quality_control.py`) judges a piece of
  educational content with a one-layer pipeline holding one
  `QualityJudge`. `improve_content` repeats a bounded loop:
  - evaluate the current content;
  - stop on the verdict `pass`;
  - otherwise ask a chat model for an improved version built from the
    judge's explanation, and evaluate that version next.
- `QualityControlEvaluator` (`quality_control_evaluator.py`) runs a
  two-layer pipeline, `MetaJudge` then `FailureAnalyzer`, over a
  quality-control decision and builds a report from the four stored
  outputs. Its `main` prints the failure analysis unless the meta rating
  is `reliable`.
- `generate_test_case` (`education_test_generator.py`) runs a pipeline
  with one `Generator` unit attached directly, with no layer. It builds a
  test-case record when the unit's explanation and choice are both
  present.

Every caller reads a unit's outputs from a flat result map, under keys it
builds from this pattern:

`<Pipeline>_root.block[.layer[i]].unit[CategoricalJudge <Name>]_choice|_explanation`

Module `Addressing` (addressing.dfy) defines this pattern once, as
`KeyFor`. It also proves that a key fixes the layer, the unit name and
the field. The key constants in the three caller modules are built with
`KeyFor` or `UnitBase` rather than written as literals. Lemmas spell
them out:
- `TestGenerator.KeyBaseSpelled` proves the generator's base equals the
  literal `TestGenerator_root.block.unit[CategoricalJudge Generator]`.
- `QualityControl.KeysSpelled` and `QcEvaluator.KeysSpelled` prove the
  layered keys equal the concatenation of their literal segments, e.g.
  `"QualityControl_root.block" + ".layer[0]" + ".unit[CategoricalJudge QualityJudge]" + "_choice"`.

External calls are oracles passed in as function parameters:

- `pipeline.run` is a function from the input record to
  `Option<map<string,string>>`. None stands for a run that raised.
- In the loop, the judge and the rewriter also take the 0-based cycle
  number. The same content may therefore be judged or rewritten
  differently on different cycles.

`ImproveContent` is an imperative method with the source's loop and
early returns. Its ghost outputs record the content passed to each
evaluation and the (content, feedback) pair passed to each regeneration.
Its postcondition equates the whole run with the specification function
`Improve`, which is defined through the generic recursion `Refine`. The
lemmas state what the source promises about `Improve`.

With a judge that never passes, a rewriter that always returns text and
`max_iterations = 3`, the loop makes 3 evaluations and 3 regenerations,
because the loop test comes only after the rewrite (`ImproveExhausts`).

`improve_content` assigns `result` only inside the loop. With
`max_iterations <= 0`, `return result` therefore raises
`UnboundLocalError`. The model returns `UnboundResult` in that case
(`ImproveOutcome`).

## Model

| member | source | states |
|---|---|---|
| Addressing.KeyForInjective | quality_control_evaluator.py:113-118 | Two keys of one pipeline built from the result-key pattern are equal only when they have the same layer (or both have none), the same unit name and the same field. So different units, and the two fields of one unit, never share a key. |
| Addressing.DecimalRoundTrip | quality_control_evaluator.py:114-118 | The decimal rendering of a layer index in a key parses back to the index, so distinct indices give distinct `.layer[i]` segments. |
| Addressing.DistinctLayersDistinctKeys | quality_control_evaluator.py:92-94 | Under the model's stage-to-layer convention (`StageLayer`), units in two different layer stages never share a key, whatever the units are called. |
| Addressing.Get | llm_quality_control.py:110-111 | `result.get(key, '')`: the value is empty exactly when the key is missing or stored empty, and a non-empty value is the stored one. The same lookup is at quality_control_evaluator.py:114-118 and education_test_generator.py:67-68. |
| Addressing.UnitBase | llm_quality_control.py:109 | A unit's key base starts with `<Pipeline>_root.block` and ends with `.unit[CategoricalJudge <Name>]`, as in the base strings at quality_control_evaluator.py:113-118 and education_test_generator.py:66. |
| Addressing.KeyFor | llm_quality_control.py:109-111 | A key is the unit's base followed by exactly `_choice` or `_explanation`, as the f-strings at quality_control_evaluator.py:114-118 and education_test_generator.py:67-68 build it. |
| Addressing.SpelledKeys | llm_quality_control.py:109-111 | Once the root block, layer segment and unit segment are known as literals, the base and both keys are their concatenation. |
| QualityControl.KeysSpelled | llm_quality_control.py:109-111 | The base path is `"QualityControl_root.block" + ".layer[0]" + ".unit[CategoricalJudge QualityJudge]"`, and the two keys append `_choice` and `_explanation` to it. |
| QualityControl.ContentQualityControl.CreatePipeline | llm_quality_control.py:33-61 | The pipeline is named `QualityControl` and has one stage: a layer holding the quality judge. That judge's labels are `pass` and `revise`, and it gives an explanation. |
| QualityControl.ContentQualityControl.EvaluateContent | llm_quality_control.py:94-125 | The result is None exactly when the run raised, or when the `_choice` or `_explanation` value under the layer-0 QualityJudge base is missing or empty. Otherwise it holds that verdict, that explanation, and the content passed in. |
| QualityControl.ContentQualityControl.QualityJudgeAddressed | llm_quality_control.py:59-61 | The pipeline has one stage, a layer holding the quality judge. The two keys the evaluator reads (lines 109-111) are that unit's keys under the addressing scheme, and they differ from each other. |
| QualityControl.ContentQualityControl.ImproveContent | llm_quality_control.py:127-169 | The loop's outcome, the contents it evaluated and the regenerations it requested are exactly the run that `Improve` describes. |
| QualityControl.RefineCounts | llm_quality_control.py:132-133 | From any cycle on, the evaluations never exceed the remaining budget. At least one evaluation happens when budget is left, and the first is of the current content. Each evaluation but possibly the last is followed by exactly one regeneration. |
| QualityControl.RefineRequestAt | llm_quality_control.py:148-157 | The k-th regeneration happens only in a cycle that went on past the verdict check. It receives the content that cycle evaluated and that evaluation's explanation. |
| QualityControl.RefineNextAt | llm_quality_control.py:159-166 | Each evaluation after the first is of the text returned by the previous cycle's regeneration, and that regeneration succeeded. |
| QualityControl.RefineOutcome | llm_quality_control.py:138-169 | The outcome is read off the last cycle. A failed evaluation gives None with no regeneration in that cycle. A pass returns that evaluation. A failed regeneration gives None. A successful regeneration in the last cycle means the budget ran out, and the last evaluation is returned. With no cycle, the outcome is the held result, or unbound when none is held. |
| QualityControl.RefineExhausts | llm_quality_control.py:132-166 | When every cycle regenerates successfully, the number of evaluations and the number of regenerations both equal the remaining budget. |
| QualityControl.ContentQualityControl.ImproveCalls | llm_quality_control.py:132-166 | At most `max_iterations` evaluations, the first on the input content. The k-th regeneration follows a successful, non-`pass` evaluation in cycle k, and receives that cycle's content and explanation. Any verdict other than exactly `pass` leads to regeneration. Each later evaluation is of the previous regeneration's text, which is `Truthy`: neither None nor empty, the negation of `not improved_content` at line 159. |
| QualityControl.ContentQualityControl.ImproveOutcome | llm_quality_control.py:129-169 | Unbound result exactly when `max_iterations <= 0`, and then no calls are made. Otherwise, if the last evaluation failed, the outcome is None with no regeneration in that cycle. If it passed, that evaluation is returned unchanged, with the content evaluated in that cycle. Any other verdict leads to one regeneration on that content and feedback. A regeneration that is not `Truthy` (None or empty, line 159) then gives None, even on the final cycle. A `Truthy` one means the budget was spent, and the last non-`pass` evaluation is returned. |
| QualityControl.ContentQualityControl.ImproveExhausts | llm_quality_control.py:132-169 | With a judge that never passes and a rewriter that always produces text, there are exactly `max_iterations` evaluations and as many regenerations. The result is the final cycle's evaluation: its verdict is not `pass`, and its content is the last content evaluated, not the last regenerated text. |
| QualityControl.ContentQualityControl.ImproveRevisesThenPasses | llm_quality_control.py:138-166 | With a revise verdict, then a successful rewrite, then a pass: two evaluations and one regeneration. The returned passing evaluation carries the regenerated text. |
| QcEvaluator.CreateEvaluationPipeline | quality_control_evaluator.py:16-96 | The pipeline is named `QCEvaluator` and has the MetaJudge layer, then the FailureAnalyzer layer. MetaJudge's labels are `reliable`, `questionable` and `failure`, FailureAnalyzer's are `systematic`, `contextual` and `random`, and both give explanations. |
| QcEvaluator.KeysSpelled | quality_control_evaluator.py:113-118 | Each of the four keys is `"QCEvaluator_root.block"`, then `.layer[0]` for MetaJudge or `.layer[1]` for FailureAnalyzer, then the unit segment, then the field suffix. |
| QcEvaluator.EvaluationPipelineAddressed | quality_control_evaluator.py:92-94 | Both stages are always present, MetaJudge's layer first and then FailureAnalyzer's. The four keys read at lines 113-118 are those units' keys (layer 0 and layer 1), and they are pairwise distinct. |
| QcEvaluator.EvaluateQcSystem | quality_control_evaluator.py:98-133 | The result is None exactly when the run raised, never because of missing keys. Otherwise the report always has both the meta evaluation and the failure analysis, and each field is the value under its unit's key, or `''` when the key is missing. |
| QcEvaluator.FailureAnalysisShownUnlessReliable | quality_control_evaluator.py:184-189 | After a successful run, `ShowsFailureAnalysis` (the test `!= 'reliable'` at line 184) holds exactly when the stored meta rating is missing or is not `reliable`. A missing rating reads as `''`, so the analysis is shown. |
| QcEvaluator.ReportReadsOnlyItsKeys | quality_control_evaluator.py:114-129 | Two runs that agree on the four read keys give the same report, whatever else their maps hold. |
| TestGenerator.CreateTestGenerationPipeline | education_test_generator.py:11-50 | The pipeline is named `TestGenerator` and has one stage, the generator attached directly. Its labels are `valid` and `invalid`, and it gives an explanation. |
| TestGenerator.KeyBaseSpelled | education_test_generator.py:66-68 | The key base equals the literal `TestGenerator_root.block.unit[CategoricalJudge Generator]`, and the two keys append `_explanation` and `_choice` to it. |
| TestGenerator.GeneratorAddressed | education_test_generator.py:48 | The pipeline has one stage, the generator attached directly. Its keys have no `.layer[i]` segment: they are `TestGenerator_root.block.unit[CategoricalJudge Generator]` plus the field suffix (line 66). They differ from the keys the same unit would have in any layer. |
| TestGenerator.GenerateTestCase | education_test_generator.py:52-86 | A record is returned exactly when the run succeeded and both the explanation and the choice under the generator's keys are non-empty. It then maps the fixed scenario, the explanation as reasoning and the choice as the test case. In every other case, including a run that raised, the result is None. |
| TestGenerator.LayeredKeysAreNotRead | education_test_generator.py:66-68 | A run that stored the generator's outputs only under layered keys produces no test case, because the caller reads the layer-free keys. |

## Left out

- OpenAI calls: `generate_improved_content` (llm_quality_control.py:63-92) and the judges' prompts are external, non-deterministic generation. The rewriter is an oracle returning `Option<string>`, and the text of the prompts is not modelled.
- `verdict` library internals are not part of this model: `Pipeline`, `Layer`, `CategoricalJudgeUnit`, `DiscreteScale`, `pipeline.run`, graceful mode, label validation and `max_workers`. `run` is an oracle returning a string map or None, and label sets are kept only as data.
- How the library itself names result keys is not modelled. The model proves facts about the key pattern the callers hard-code, not that the library stores outputs under it. `StageLayer` (layer stage `i` is `.layer[i]`, a direct unit has no layer segment) generalises the three scripts' keys to any pipeline, including ones that mix direct and layered stages or put several units in a layer. The scripts show neither case.
- `.via('gpt-4o-mini', retries=1)` (education_test_generator.py:45): retries happen inside the library call and are folded into the oracle.
- Exceptions: any exception inside a `try` block is modelled as the oracle's None. Other Python exceptions are not modelled, except the `UnboundLocalError` of `return result`.
- Logging, `print`, `main`, the `OPENAI_API_KEY` check, `exit(1)` and `ratelimit.disable()` are process I/O. The one display rule of the evaluator's `main` (`!= 'reliable'`) is modelled as `ShowsFailureAnalysis`.
- The constructor defaults (`content_type="text"`, `max_iterations=3`) and `main`'s `max_iterations=5` are not fixed: the model is proved for every content type and every integer budget.
- `INITIAL_CONTENT` and the sample inputs in the `main` functions are not modelled.
