/**
 * The agent state as the graph threads it through the nodes: one object
 * whose fields the nodes overwrite, and whose reasoning trace every node
 * extends in place. Each method does what its node does, step by step, and
 * its contract ties the new state to the node's function in `Nodes`.
 *
 * The ghost fields record the oracle calls made so far: the prompts given
 * to the model, the queries sent to `/search` and the operands sent to
 * `/calculate`.
 */
module Agent {
  import opened Wrappers
  import opened Text
  import opened NumberPattern
  import opened Nodes

  class AgentState {
    var originalQuestion: string
    var searchKeywords: string
    var context: string
    var sources: set<string>
    var toolLog: string
    var finalAns: string
    var thinkingSteps: seq<string>
    ghost var llmPrompts: seq<Prompt>
    ghost var searchQueries: seq<string>
    ghost var calcCalls: seq<(string, string)>

    /** The whole state, as the pure model describes it. */
    ghost function Snapshot(): Outcome
      reads this
    {
      Outcome(originalQuestion, searchKeywords, context, sources, toolLog, finalAns,
              thinkingSteps, llmPrompts, searchQueries, calcCalls)
    }

    /** The initial inputs: the question, every other field empty. */
    constructor(question: string)
      ensures Snapshot() == Outcome(question, [], [], {}, [], [], [], [], [], [])
    {
      originalQuestion := question;
      searchKeywords := [];
      context := [];
      sources := {};
      toolLog := [];
      finalAns := [];
      thinkingSteps := [];
      llmPrompts := [];
      searchQueries := [];
      calcCalls := [];
    }

    /** `preprocess_query`: writes the search keywords and two trace entries. */
    method Preprocess(llm: Prompt -> string)
      modifies this`searchKeywords, this`thinkingSteps, this`llmPrompts
      ensures var u := PreprocessNode(originalQuestion, llm);
              && searchKeywords == u.keywords
              && thinkingSteps == old(thinkingSteps) + u.steps
              && llmPrompts == old(llmPrompts) + [u.prompt]
      ensures unchanged(this`originalQuestion, this`context, this`sources, this`toolLog, this`finalAns,
                        this`searchQueries, this`calcCalls)
    {
      var userQ := originalQuestion;
      ghost var before := thinkingSteps;
      var router := RouterStep(userQ);
      thinkingSteps := thinkingSteps + [router];
      var prompt := KeywordPrompt(userQ);
      llmPrompts := llmPrompts + [prompt];
      var keywords := Strip(llm(prompt));
      if keywords == [] {
        keywords := userQ;
      }
      PreprocessParts(userQ, llm, keywords);
      var extracted := KeywordsStep(keywords);
      thinkingSteps := thinkingSteps + [extracted];
      searchKeywords := keywords;
      AppendTwo(before, router, extracted);
    }

    /** `retrieve`: searches for the keywords and writes the context and the sources. */
    method Retrieve(search: string -> SearchReply)
      modifies this`context, this`sources, this`thinkingSteps, this`searchQueries
      ensures var u := RetrieveNode(search(searchKeywords));
              && context == u.context && sources == u.sources
              && thinkingSteps == old(thinkingSteps) + u.steps
              && searchQueries == old(searchQueries) + [searchKeywords]
      ensures unchanged(this`originalQuestion, this`searchKeywords, this`toolLog, this`finalAns,
                        this`llmPrompts, this`calcCalls)
    {
      ghost var before := thinkingSteps;
      thinkingSteps := thinkingSteps + [SearchingStep];
      searchQueries := searchQueries + [searchKeywords];
      var reply := search(searchKeywords);
      var outcome: string;
      match reply {
        case Unreachable =>
          outcome := UnreachableStep;
          context, sources := RetrievalError, {};
        case Reply(results, metadatas) =>
          if results.None? || results.value == [] {
            outcome := NoDocumentsStep;
            context, sources := Missing, {};
          } else {
            var contextText := Join(results.value, PassageSeparator);
            var fileSources := {};
            if metadatas.Some? && metadatas.value != [] {
              fileSources := Filenames(metadatas.value);
            }
            outcome := FoundStep(|results.value|);
            context, sources := contextText, fileSources;
          }
      }
      thinkingSteps := thinkingSteps + [outcome];
      AppendTwo(before, SearchingStep, outcome);
    }

    /** `reason`: decides from the question alone whether to call the calculator. */
    method Reason()
      modifies this`toolLog, this`thinkingSteps
      ensures var u := ReasonNode(originalQuestion);
              && toolLog == u.toolLog && thinkingSteps == old(thinkingSteps) + u.steps
      ensures unchanged(this`originalQuestion, this`searchKeywords, this`context, this`sources, this`finalAns,
                        this`llmPrompts, this`searchQueries, this`calcCalls)
    {
      var q := Lower(originalQuestion);
      var hasNumbers := HasDigit(q);
      FindAllLower(originalQuestion);
      NumbersIffDigit(q);
      if hasNumbers && AnyContained(q, MathWords) {
        var nums := FindAll(q);
        if |nums| >= 2 {
          thinkingSteps := thinkingSteps + [CalcDetectedStep];
          toolLog := EncodeCalc(nums[0], nums[1]);
          return;
        }
      }
      thinkingSteps := thinkingSteps + [NoCalcStep];
      toolLog := NoTool;
    }

    /** `execute_tool`: runs a requested calculation and writes its outcome to the tool log. */
    method ExecuteTool(calculator: (string, string) -> Option<string>)
      modifies this`toolLog, this`thinkingSteps, this`calcCalls
      ensures var u := ToolNode(old(toolLog), calculator);
              && toolLog == u.toolLog && thinkingSteps == old(thinkingSteps) + u.steps
              && calcCalls == old(calcCalls) + OptionToSeq(u.calcArgs)
      ensures unchanged(this`originalQuestion, this`searchKeywords, this`context, this`sources, this`finalAns,
                        this`llmPrompts, this`searchQueries)
    {
      ghost var before := thinkingSteps;
      if StartsWith(toolLog, CalcTag) {
        var parsed := ParseCalc(toolLog);
        if parsed.None? {
          thinkingSteps := thinkingSteps + [ToolFailedStep];
          toolLog := CalculationError;
          return;
        }
        var (n1, n2) := parsed.value;
        var calling := CallingStep(n1, n2);
        thinkingSteps := thinkingSteps + [calling];
        calcCalls := calcCalls + [(n1, n2)];
        var reply := calculator(n1, n2);
        var outcome: string;
        if reply.None? {
          outcome := ToolFailedStep;
          toolLog := CalculationError;
        } else {
          outcome := ResultStep(reply.value);
          toolLog := reply.value;
        }
        thinkingSteps := thinkingSteps + [outcome];
        AppendTwo(before, calling, outcome);
        return;
      }
      toolLog := NoCalculation;
    }

    /** `generate`: refuses on the MISSING sentinel, otherwise asks the model. */
    method Generate(llm: Prompt -> string)
      modifies this`finalAns, this`thinkingSteps, this`llmPrompts
      ensures var u := GenerateNode(context, originalQuestion, llm);
              && finalAns == u.finalAns && thinkingSteps == old(thinkingSteps) + u.steps
              && llmPrompts == old(llmPrompts) + OptionToSeq(u.prompt)
      ensures unchanged(this`originalQuestion, this`searchKeywords, this`context, this`sources, this`toolLog,
                        this`searchQueries, this`calcCalls)
    {
      thinkingSteps := thinkingSteps + [SynthesizingStep];
      if context == Missing {
        finalAns := Refusal;
        return;
      }
      var prompt := AnswerPrompt(context, originalQuestion);
      llmPrompts := llmPrompts + [prompt];
      finalAns := Strip(llm(prompt));
    }
  }

  /** Appending two entries one after the other appends the pair. */
  lemma AppendTwo<T>(a: seq<T>, x: T, y: T)
    ensures a + [x] + [y] == a + [x, y]
  {
  }

  /**
   * `app.invoke(inputs)`: a fresh state for the question, then the five
   * nodes in their fixed order. The final state is the pure model's run,
   * and the caller gets the answer, the trace and the sources.
   */
  method Invoke(question: string, llm: Prompt -> string, search: string -> SearchReply,
                calculator: (string, string) -> Option<string>)
    returns (state: AgentState)
    ensures fresh(state)
    ensures state.Snapshot() == Run(question, llm, search, calculator)
  {
    state := new AgentState(question);
    state.Preprocess(llm);
    ghost var p := PreprocessNode(question, llm);
    assert [] + p.steps == p.steps;
    state.Retrieve(search);
    ghost var r := RetrieveNode(search(p.keywords));
    state.Reason();
    ghost var c := ReasonNode(question);
    state.ExecuteTool(calculator);
    ghost var t := ToolNode(c.toolLog, calculator);
    state.Generate(llm);
    ghost var g := GenerateNode(r.context, question, llm);
    assert state.thinkingSteps == p.steps + r.steps + c.steps + t.steps + g.steps;
    assert state.llmPrompts == [p.prompt] + OptionToSeq(g.prompt);
    assert state.searchQueries == [p.keywords];
    assert state.calcCalls == OptionToSeq(t.calcArgs);
  }

  /**
   * What the chat page reads back after a run: the answer, the reasoning
   * trace and the sources, each as the pure model predicts.
   */
  method Answer(question: string, llm: Prompt -> string, search: string -> SearchReply,
                calculator: (string, string) -> Option<string>)
    returns (finalAns: string, thinkingSteps: seq<string>, sources: set<string>)
    ensures var o := Run(question, llm, search, calculator);
            finalAns == o.finalAns && thinkingSteps == o.thinkingSteps && sources == o.sources
    ensures search(Run(question, llm, search, calculator).searchKeywords) == Unreachable ==>
              finalAns == Strip(llm(AnswerPrompt(RetrievalError, question)))
    ensures var reply := search(Run(question, llm, search, calculator).searchKeywords);
            reply.Reply? && !HasResults(reply) ==> finalAns == Refusal
  {
    var state := Invoke(question, llm, search, calculator);
    finalAns, thinkingSteps, sources := state.finalAns, state.thinkingSteps, state.sources;
    ErrorSentinelReachesModel(question, llm, search, calculator);
    RefusalWithoutDocuments(question, llm, search, calculator);
  }
}
