/**
  The test-case generator: a pipeline with one judge attached straight to it
  (no layer), run once on a fixed scenario. The caller reads the judge's
  explanation and choice and builds a test-case record only when both are
  non-empty.

  `pipeline.run` is an oracle from the input record to the result map, None
  when it raised.
*/
module TestGenerator {
  import opened Wrappers
  import opened Addressing

  const Generator := JudgeUnit("Generator", ["valid", "invalid"], true)

  /** The scenario `generate_test_case` always asks for. */
  const Scenario: string := "Create a math problem that tests fraction addition but has subtle conceptual gaps"

  /** `TestGenerator_root.block.unit[CategoricalJudge Generator]`: no layer segment. */
  const KeyBase: string := UnitBase("TestGenerator", None, "Generator")

  /** The literal pieces of the generator's key base. */
  lemma GeneratorKeyPieces()
    ensures "TestGenerator" + "_root.block" == "TestGenerator_root.block"
    ensures UnitSegment("Generator") == ".unit[CategoricalJudge Generator]"
  {
  }

  lemma GeneratorKeyJoined()
    ensures "TestGenerator_root.block" + ".unit[CategoricalJudge Generator]"
            == "TestGenerator_root.block.unit[CategoricalJudge Generator]"
  {
  }

  /** The key base is the string the caller writes, with no layer segment, and the keys append the field suffix to it. */
  lemma KeyBaseSpelled()
    ensures KeyBase == "TestGenerator_root.block.unit[CategoricalJudge Generator]"
    ensures KeyFor("TestGenerator", None, "Generator", Explanation) == KeyBase + "_explanation"
    ensures KeyFor("TestGenerator", None, "Generator", Choice) == KeyBase + "_choice"
  {
    GeneratorKeyPieces();
    GeneratorKeyJoined();
    assert "TestGenerator_root.block" + "" == "TestGenerator_root.block";
    SpelledKeys("TestGenerator", None, "Generator", "TestGenerator_root.block", "", ".unit[CategoricalJudge Generator]");
  }

  /** The record `pipeline.run` is given. */
  datatype TestInput = TestInput(scenario: string)

  /** The dictionary `generate_test_case` returns. */
  datatype TestCase = TestCase(scenario: string, reasoning: string, testCase: string)

  /** `create_test_generation_pipeline`: the generator attached directly to the pipeline, labelling `valid` or `invalid` and explaining itself. */
  function CreateTestGenerationPipeline(): (p: Pipeline)
    ensures p.name == "TestGenerator" && p.stages == [Direct(Generator)]
    ensures Generator.categories == ["valid", "invalid"] && Generator.explanation
  {
    Then(Pipeline("TestGenerator", []), Direct(Generator))
  }

  /**
    The generator is the pipeline's only stage and is not wrapped in a layer,
    so its keys carry no `.layer[i]` segment; they are the keys the caller
    reads, and they differ from those the same unit would have in a layer.
  */
  lemma GeneratorAddressed()
    ensures var p := CreateTestGenerationPipeline();
            && p.stages == [Direct(Generator)]
            && StageLayer(p, 0) == None
            && KeyBase + Suffix(Explanation) == StageKey(p, 0, Generator, Explanation)
            && KeyBase + Suffix(Choice) == StageKey(p, 0, Generator, Choice)
    ensures forall i: nat, f: Field :: KeyBase + Suffix(f) != KeyFor("TestGenerator", Some(i), "Generator", f)
  {
  }

  /**
    `generate_test_case`: a record exactly when the run succeeded and both the
    explanation and the choice under the generator's keys are non-empty (a
    missing key reads as `''`); the record holds the scenario, the
    explanation as reasoning and the choice as the test case. A run that
    raised gives None.
  */
  function GenerateTestCase(run: TestInput -> Option<ResultMap>): (r: Option<TestCase>)
    ensures r.Some? <==> (run(TestInput(Scenario)).Some?
                          && Get(run(TestInput(Scenario)).value, StageKey(CreateTestGenerationPipeline(), 0, Generator, Explanation)) != ""
                          && Get(run(TestInput(Scenario)).value, StageKey(CreateTestGenerationPipeline(), 0, Generator, Choice)) != "")
    ensures r.Some? ==>
              var m := run(TestInput(Scenario)).value;
              var p := CreateTestGenerationPipeline();
              r.value == TestCase(Scenario, Get(m, StageKey(p, 0, Generator, Explanation)), Get(m, StageKey(p, 0, Generator, Choice)))
  {
    GeneratorAddressed();
    match run(TestInput(Scenario))
    case None => None
    case Some(result) =>
      var explanation := Get(result, KeyBase + Suffix(Explanation));
      var choice := Get(result, KeyBase + Suffix(Choice));
      if explanation != "" && choice != "" then Some(TestCase(Scenario, explanation, choice))
      else None
  }

  /**
    A run that stored the generator's outputs under layered keys, as if the
    unit sat in layer `i`, and nothing under the direct keys, yields no test
    case.
  */
  lemma LayeredKeysAreNotRead(run: TestInput -> Option<ResultMap>, i: nat)
    requires run(TestInput(Scenario)).Some?
    requires var m := run(TestInput(Scenario)).value;
             forall key :: key in m ==>
               (key == KeyFor("TestGenerator", Some(i), "Generator", Choice)
                || key == KeyFor("TestGenerator", Some(i), "Generator", Explanation))
    ensures GenerateTestCase(run).None?
  {
  }
}
