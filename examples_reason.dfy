/**
 * The numbers and trigger words of the planner's example questions,
 * worked out piece by piece. They are kept apart from `Nodes` so that the
 * proofs there do not carry the question texts. Most questions are written
 * as the concatenation of the pieces the proofs take apart ("Calculate " +
 * "2" + " plus " + "3" is the question "Calculate 2 plus 3"): the solver
 * compares a long literal with its pieces only at great cost.
 */
module ReasonExampleFacts {
  import opened Wrappers
  import opened Text
  import opened NumberPattern

  lemma CalculateExampleNumbers(q: string)
    requires q == "Calculate " + "2" + " plus " + "3"
    ensures FindAll(q) == ["2", "3"]
  {
    assert q == "Calculate " + "2" + " plus " + "3" + "";
    FindAllTwoDigits("Calculate ", '2', " plus ", '3', "");
  }

  lemma CalculateExampleTrigger(q: string)
    requires q == "Calculate " + "2" + " plus " + "3"
    ensures Contains(Lower(q), "calculate")
  {
    CalculateLowered();
    assert "Calculate" <= q;
    LowerPrefixContains(q, "Calculate", "calculate");
  }

  lemma CalculateLowered()
    ensures Lower("Calculate") == "calculate"
  {
  }

  lemma FirstTwoExampleNumbers(q: string)
    requires q == "I have " + "2" + " absences in " + "3" + " courses, " + "total?"
    ensures FindAll(q) == ["2", "3"]
  {
    assert q == "I have " + "2" + " absences in " + "3" + (" courses, " + "total?");
    FindAllTwoDigits("I have ", '2', " absences in ", '3', " courses, " + "total?");
  }

  lemma FirstTwoExampleTrigger(q: string)
    requires q == "I have " + "2" + " absences in " + "3" + " courses, " + "total?"
    ensures Contains(Lower(q), "total")
  {
    assert Lower("total") == "total";
    assert q == "I have " + "2" + " absences in " + "3" + " courses, " + "total" + "?";
    LowerInfixContains("I have " + "2" + " absences in " + "3" + " courses, ", "total", "?", "total");
  }

  lemma NoNumberExampleNumbers(q: string)
    requires q == "What is " + "the exam " + "policy?"
    ensures FindAll(q) == []
  {
    FindAllNone(q);
  }

  lemma OneNumberExampleNumbers(q: string)
    requires q == "What is " + "the total " + "fine for " + "3" + " offenses?"
    ensures FindAll(q) == ["3"]
  {
    FindAllOneDigit("What is " + "the total " + "fine for ", '3', " offenses?");
  }

  lemma ThreeNumberExampleNumbers(q: string)
    requires q == "add " + "1" + " and " + "2" + " and " + "3"
    ensures FindAll(q) == ["1", "2", "3"]
  {
    FindFromPlainDigit(q, "add ");
    FindFromSkip(q, 5, 10);
    FindFromDigit(q, 10);
    FindFromOneDigit(q, 11, " and ", '3', "");
  }

  lemma ThreeNumberExampleTrigger(q: string)
    requires q == "add " + "1" + " and " + "2" + " and " + "3"
    ensures Contains(Lower(q), "add")
  {
    assert Lower("add") == "add";
    LowerPrefixContains(q, "add", "add");
  }

  lemma MultiplyExampleNumbers(q: string)
    requires q == "Multiply 12 by 3.5"
    ensures FindAll(q) == ["12", "3.5"]
  {
    MultiplyFirstNumber(q);
    MultiplySecondNumber(q);
  }

  lemma MultiplyFirstNumber(q: string)
    requires q == "Multiply 12 by 3.5"
    ensures FindAll(q) == ["12"] + FindFrom(q, 11)
  {
    FindFromSkip(q, 0, 9);
    assert DigitRunEnd(q, 11) == 11;
    assert DigitRunEnd(q, 10) == 11;
    assert MatchEnd(q, 9) == Some(11);
    assert q[9..11] == "12";
  }

  lemma MultiplySecondNumber(q: string)
    requires q == "Multiply 12 by 3.5"
    ensures FindFrom(q, 11) == ["3.5"]
  {
    FindFromSkip(q, 11, 15);
    assert DigitRunEnd(q, 16) == 16;
    assert DigitRunEnd(q, 17) == 18;
    assert MatchEnd(q, 15) == Some(18);
    assert FindFrom(q, 18) == [];
    assert q[15..18] == "3.5";
  }

  lemma MultiplyExampleTrigger(q: string)
    requires q == "Multiply 12 by 3.5"
    ensures Contains(Lower(q), "multiply")
  {
    MultiplyLowered();
    assert "Multiply" <= q;
    LowerPrefixContains(q, "Multiply", "multiply");
  }

  lemma MultiplyLowered()
    ensures Lower("Multiply") == "multiply"
  {
  }
}
