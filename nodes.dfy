/**
 * The five nodes of the question-answering agent as functions of the
 * state they read and of the oracles they consult, and their fixed
 * composition preprocess -> retrieve -> reason -> tool -> generate.
 *
 * The oracles: `llm` is the language model, from the prompt to the
 * generated text (it is given the prompt as a `Prompt` value, whose
 * `PromptText` is what the model reads, so every model of the text is one
 * of these); `search` is the tool server's `/search` endpoint as seen by
 * the client, and `calculator` is the `/calculate` endpoint together with the client's
 * `float()` conversion of the operands and its reading of the reply's
 * message. Each node's update says which oracle it asked and what it asked.
 */
module Nodes {
  import opened Wrappers
  import opened Text
  import opened NumberPattern
  import Server
  import opened ReasonExampleFacts

  /** The context sentinel for "no passages found". */
  const Missing: string := "MISSING"
  /** The context written when the tool server cannot be reached. */
  const RetrievalError: string := "Error connecting to Tool Server"
  /** The canned refusal. */
  const Refusal: string := "I don't know based on the provided documents."
  /** The tool log of a question that needs no calculation. */
  const NoTool: string := "NONE"
  const CalcTag: string := "CALC"
  const NoCalculation: string := "No calculation needed."
  const CalculationError: string := "Calculation Error"
  /** The separator `"\n\n".join` puts between passages. */
  const PassageSeparator: string := "\n\n"
  /** The words that signal a calculation. */
  const MathWords: seq<string> := ["calculate", "sum", "total", "add", "multiply"]

  // The prompt texts, exactly as sent.
  const KeywordPromptHead: string := @"<|im_start|>system
You are a University Policy Search Assistant. 
Extract the core keywords from the question for a vector database search.
Focus on terms like ""Misconduct"", ""Punishment"", ""Committee"", ""Appeal"", ""Exam"".

Example 1:
Input: ""What happens if I cheat in an exam?""
Keywords: Cheating unfair means examination misconduct punishment

Example 2:
Input: ""Who is in the disciplinary committee?""
Keywords: Disciplinary Committee members authority composition

Input: """
  const KeywordPromptTail: string := @"""
Keywords:
<|im_end|>
<|im_start|>assistant
"
  const AnswerPromptHead: string := @"<|im_start|>system
You are an intelligent Assistant for East West University (EWU).
Your task is to answer policy questions based STRICTLY on the provided context.

INSTRUCTIONS:
1. Use ONLY the information in the CONTEXT below.
2. If the answer is not in the context, say ""I don't know based on the provided documents.""
3. Do not make up rules or punishments.
4. If a list is provided in the context, format the answer as a bulleted list.

CONTEXT:
"
  const AnswerPromptMid: string := @"

USER QUESTION:
"
  const AnswerPromptTail: string := @"
<|im_end|>
<|im_start|>assistant
"

  /**
   * The two prompts the agent sends the model, by what is spliced into
   * them: the few-shot keyword-extraction prompt around the user's question,
   * and the strict-grounding answer prompt around the context and the
   * question. `PromptText` is the text sent.
   */
  datatype Prompt = KeywordPrompt(question: string) | AnswerPrompt(context: string, question: string)

  function PromptText(p: Prompt): string {
    match p
    case KeywordPrompt(question) => KeywordPromptText(question)
    case AnswerPrompt(context, question) => AnswerPromptText(context, question)
  }

  function KeywordPromptText(question: string): string {
    KeywordPromptHead + question + KeywordPromptTail
  }

  function AnswerPromptText(context: string, question: string): string {
    AnswerPromptHead + context + AnswerPromptMid + question + AnswerPromptTail
  }

  /** The answer prompt holds the whole context and the whole question verbatim. */
  lemma AnswerPromptHolds(context: string, question: string)
    ensures Contains(AnswerPromptText(context, question), context)
    ensures Contains(AnswerPromptText(context, question), question)
  {
    SpliceHolds(AnswerPromptHead, context, AnswerPromptMid, question, AnswerPromptTail);
  }

  /** Both texts spliced between three others are contained in the result. */
  lemma SpliceHolds(head: string, a: string, mid: string, b: string, tail: string)
    ensures Contains(head + a + mid + b + tail, a)
    ensures Contains(head + a + mid + b + tail, b)
  {
    ContainsInfix(head, a, mid + b + tail);
    assert head + a + (mid + b + tail) == head + a + mid + b + tail;
    ContainsInfix(head + a + mid, b, tail);
  }

  // The reasoning-trace entries each node appends.

  function RouterStep(question: string): string {
    "\U{1F9E0} **Router:** Analyzing query '" + question + "'..."
  }

  function KeywordsStep(keywords: string): string {
    "\U{1F511} **Keywords Extracted:** `" + keywords + "`"
  }

  const SearchingStep: string := "\U{1F4E1} **Retrieval:** Searching Vector DB..."
  const NoDocumentsStep: string := "\U{274C} **Retrieval:** No documents found."
  const UnreachableStep: string := "\U{26A0}\U{FE0F} **Error:** Tool Server Unreachable."

  function FoundStep(count: nat): string {
    "\U{2705} **Retrieval:** Found " + NatToString(count) + " relevant clauses."
  }

  const CalcDetectedStep: string := "\U{2699}\U{FE0F} **Planner:** Calculation detected. Routing to Calculator Tool."
  const NoCalcStep: string := "\U{2699}\U{FE0F} **Planner:** No calculation needed. Proceeding to Answer Generation."

  function CallingStep(n1: string, n2: string): string {
    "\U{1F9EE} **Tool:** Calling API with `" + n1 + ", " + n2 + "`..."
  }

  function ResultStep(result: string): string {
    "\U{2705} **Tool:** Result received: `" + result + "`"
  }

  const ToolFailedStep: string := "\U{274C} **Tool:** Execution Failed."
  const SynthesizingStep: string := "\U{1F4DD} **Generator:** Synthesizing final answer..."

  /**
   * What the client makes of a `/search` call: either the request or the
   * decoding of its reply raised, or the reply's `results` and `metadatas`
   * entries, each possibly absent.
   */
  datatype SearchReply =
    | Unreachable
    | Reply(results: Option<seq<string>>, metadatas: Option<seq<Server.Metadata>>)

  /** The reply the tool server sends for one `search_tool` result. */
  function ServerReply(results: seq<string>, metadatas: seq<Server.Metadata>): SearchReply {
    Reply(Some(results), Some(metadatas))
  }

  // ---------------------------------------------------------------- preprocess

  datatype PreprocessUpdate = PreprocessUpdate(keywords: string, steps: seq<string>, prompt: Prompt)

  /**
   * `preprocess_query`: ask the model for search keywords and fall back to
   * the question itself when the stripped answer is empty.
   */
  function PreprocessNode(question: string, llm: Prompt -> string): (u: PreprocessUpdate)
    ensures u.prompt == KeywordPrompt(question)
    ensures u.keywords == if AllSpace(llm(u.prompt)) then question else Strip(llm(u.prompt))
    ensures question != [] ==> u.keywords != []
    ensures u.steps == [RouterStep(question), KeywordsStep(u.keywords)]
  {
    var prompt := KeywordPrompt(question);
    var generated := llm(prompt);
    StripEmptyIff(generated);
    var keywords := if Strip(generated) == [] then question else Strip(generated);
    PreprocessUpdate(keywords, [RouterStep(question), KeywordsStep(keywords)], prompt)
  }

  /** The update, given the keywords: the stripped reply, or the question itself when the reply strips to nothing. */
  lemma PreprocessParts(question: string, llm: Prompt -> string, keywords: string)
    requires var s := Strip(llm(KeywordPrompt(question))); keywords == if s == [] then question else s
    ensures PreprocessNode(question, llm)
            == PreprocessUpdate(keywords, [RouterStep(question), KeywordsStep(keywords)], KeywordPrompt(question))
  {
  }

  // ------------------------------------------------------------------ retrieve

  /** `m.get('filename', 'Unknown')`. */
  function FilenameOf(m: Server.Metadata): string {
    if "filename" in m then m["filename"] else "Unknown"
  }

  /** `set([m.get('filename', 'Unknown') for m in metadatas])`. */
  function Filenames(metadatas: seq<Server.Metadata>): (names: set<string>)
    ensures forall f :: f in names <==> exists i :: 0 <= i < |metadatas| && FilenameOf(metadatas[i]) == f
    ensures |names| <= |metadatas|
    decreases |metadatas|
  {
    if metadatas == [] then {}
    else
      var rest := Filenames(metadatas[1..]);
      forall f | f in rest ensures exists i :: 0 <= i < |metadatas| && FilenameOf(metadatas[i]) == f {
        var i :| 0 <= i < |metadatas[1..]| && FilenameOf(metadatas[1..][i]) == f;
        assert FilenameOf(metadatas[i + 1]) == f;
      }
      forall f | (exists i :: 0 <= i < |metadatas| && FilenameOf(metadatas[i]) == f) && f != FilenameOf(metadatas[0])
        ensures f in rest
      {
        var i :| 0 <= i < |metadatas| && FilenameOf(metadatas[i]) == f;
        assert FilenameOf(metadatas[1..][i - 1]) == f;
      }
      {FilenameOf(metadatas[0])} + rest
  }

  datatype RetrieveUpdate = RetrieveUpdate(context: string, sources: set<string>, steps: seq<string>)

  /** The reply carries at least one passage (`data.get("results")` is truthy). */
  predicate HasResults(reply: SearchReply) {
    reply.Reply? && reply.results.Some? && reply.results.value != []
  }

  /**
   * `retrieve`: the context and the sources the node writes for the reply
   * it got when it searched for the keywords.
   */
  function RetrieveNode(reply: SearchReply): (u: RetrieveUpdate)
    ensures reply.Unreachable? ==> u.context == RetrievalError && u.sources == {}
    ensures reply.Reply? && !HasResults(reply) ==> u.context == Missing && u.sources == {}
    ensures HasResults(reply) ==>
              var results := reply.results.value;
              && u.context == Join(results, PassageSeparator)
              && (forall i :: 0 <= i < |results| ==> Contains(u.context, results[i]))
              && u.steps == [SearchingStep, FoundStep(|results|)]
              && (reply.metadatas.Some? ==>
                    forall f :: f in u.sources <==> exists i :: 0 <= i < |reply.metadatas.value| && FilenameOf(reply.metadatas.value[i]) == f)
              && (reply.metadatas.None? ==> u.sources == {})
    ensures |u.steps| == 2 && u.steps[0] == SearchingStep
  {
    match reply
    case Unreachable => RetrieveUpdate(RetrievalError, {}, [SearchingStep, UnreachableStep])
    case Reply(results, metadatas) =>
      if results.None? || results.value == [] then
        RetrieveUpdate(Missing, {}, [SearchingStep, NoDocumentsStep])
      else
        var contextText := Join(results.value, PassageSeparator);
        JoinContainsParts(results.value, PassageSeparator);
        var fileSources := if metadatas.Some? && metadatas.value != [] then Filenames(metadatas.value) else {};
        RetrieveUpdate(contextText, fileSources, [SearchingStep, FoundStep(|results.value|)])
  }

  /** Every part joined into a text is contained in it verbatim. */
  lemma {:induction false} JoinContainsParts(parts: seq<string>, sep: string)
    ensures forall i :: 0 <= i < |parts| ==> Contains(Join(parts, sep), parts[i])
    decreases |parts|
  {
    if |parts| == 1 {
      ContainsInfix([], parts[0], []);
      assert [] + parts[0] + [] == parts[0];
    } else if |parts| > 1 {
      var rest := Join(parts[1..], sep);
      JoinContainsParts(parts[1..], sep);
      ContainsInfix([], parts[0], sep + rest);
      assert [] + parts[0] + (sep + rest) == Join(parts, sep);
      forall i | 1 <= i < |parts| ensures Contains(Join(parts, sep), parts[i]) {
        assert parts[1..][i - 1] == parts[i];
        ContainsSuffix(parts[0] + sep, rest, parts[i]);
        assert parts[0] + sep + rest == Join(parts, sep);
      }
    }
  }

  /** What a text contains, any longer text ending in it contains too. */
  lemma ContainsSuffix(a: string, hay: string, needle: string)
    requires Contains(hay, needle)
    ensures Contains(a + hay, needle)
  {
    ContainsIff(hay, needle);
    var k :| OccursAt(hay, needle, k);
    assert (a + hay)[|a| + k..|a| + k + |needle|] == hay[k..k + |needle|];
    assert OccursAt(a + hay, needle, |a| + k);
    ContainsIff(a + hay, needle);
  }

  /**
   * What the client makes of the server's selection from a ranked list: no
   * selected passage gives the MISSING sentinel; otherwise the context holds
   * every selected passage, the sources are the file names of the selected
   * metadata, and the trace counts at most five clauses.
   */
  lemma ServerSelectionRetrieved(ranked: seq<Server.Scored>, results: seq<string>, metadatas: seq<Server.Metadata>)
    requires |results| == |metadatas| == |Server.Selected(ranked)|
    requires forall i :: 0 <= i < |results| ==>
               results[i] == Server.Selected(ranked)[i].doc.pageContent
               && metadatas[i] == Server.Selected(ranked)[i].doc.metadata
    ensures Server.Selected(ranked) == [] ==>
              RetrieveNode(ServerReply(results, metadatas)).context == Missing
              && RetrieveNode(ServerReply(results, metadatas)).sources == {}
    ensures Server.Selected(ranked) != [] ==>
              forall i :: 0 <= i < |Server.Selected(ranked)| ==>
                Contains(RetrieveNode(ServerReply(results, metadatas)).context, Server.Selected(ranked)[i].doc.pageContent)
    ensures Server.Selected(ranked) != [] ==>
              forall f :: f in RetrieveNode(ServerReply(results, metadatas)).sources <==>
                exists i :: 0 <= i < |Server.Selected(ranked)| && FilenameOf(Server.Selected(ranked)[i].doc.metadata) == f
    ensures Server.Selected(ranked) != [] ==>
              RetrieveNode(ServerReply(results, metadatas)).steps == [SearchingStep, FoundStep(|results|)]
              && |results| <= Server.TopN
  {
    var sel := Server.Selected(ranked);
    var u := RetrieveNode(ServerReply(results, metadatas));
    if sel != [] {
      forall f ensures f in u.sources <==> exists i :: 0 <= i < |sel| && FilenameOf(sel[i].doc.metadata) == f {
        if f in u.sources {
          var i :| 0 <= i < |metadatas| && FilenameOf(metadatas[i]) == f;
          assert FilenameOf(sel[i].doc.metadata) == f;
        }
        if exists i :: 0 <= i < |sel| && FilenameOf(sel[i].doc.metadata) == f {
          var i :| 0 <= i < |sel| && FilenameOf(sel[i].doc.metadata) == f;
          assert FilenameOf(metadatas[i]) == f;
        }
      }
    }
  }

  // -------------------------------------------------------------------- reason

  /** `any(w in q for w in words)`. */
  function AnyContained(q: string, words: seq<string>): (b: bool)
    ensures b <==> exists i :: 0 <= i < |words| && Contains(q, words[i])
    decreases |words|
  {
    if words == [] then false
    else
      assert forall i :: 1 <= i < |words| ==> words[1..][i - 1] == words[i];
      Contains(q, words[0]) || AnyContained(q, words[1..])
  }

  /** The tool log that requests a calculation on two operands. */
  function EncodeCalc(a: string, b: string): string {
    CalcTag + ":" + a + "," + b
  }

  /** A calculation request is never the "no tool" log. */
  lemma EncodeCalcIsTool(a: string, b: string)
    ensures EncodeCalc(a, b) != NoTool
  {
    assert EncodeCalc(a, b)[1] != NoTool[1];
  }

  /**
   * The reference definition of a calculation request: the lower-cased
   * question names one of the math words and holds at least two numbers.
   */
  ghost predicate CalcIntent(question: string) {
    AnyContained(Lower(question), MathWords) && |FindAll(question)| >= 2
  }

  datatype ReasonUpdate = ReasonUpdate(toolLog: string, steps: seq<string>)

  /**
   * `reason`: request a calculation on the first two numbers of the
   * question exactly when it asks for one, and nothing otherwise. The digit
   * test of the source is implied by finding two numbers, and lower-casing
   * changes no number.
   */
  function ReasonNode(question: string): (u: ReasonUpdate)
    ensures u.toolLog != NoTool <==> CalcIntent(question)
    ensures CalcIntent(question) ==>
              u.toolLog == EncodeCalc(FindAll(question)[0], FindAll(question)[1]) && u.steps == [CalcDetectedStep]
    ensures !CalcIntent(question) ==> u.toolLog == NoTool && u.steps == [NoCalcStep]
  {
    var q := Lower(question);
    FindAllLower(question);
    NumbersIffDigit(q);
    var hasNumbers := HasDigit(q);
    if hasNumbers && AnyContained(q, MathWords) && |FindAll(q)| >= 2 then
      var nums := FindAll(q);
      EncodeCalcIsTool(nums[0], nums[1]);
      ReasonUpdate(EncodeCalc(nums[0], nums[1]), [CalcDetectedStep])
    else
      ReasonUpdate(NoTool, [NoCalcStep])
  }

  /** "Calculate 2 plus 3" asks for a calculation on 2 and 3. */
  lemma ReasonCalculateExample(q: string)
    requires q == "Calculate " + "2" + " plus " + "3"
    ensures ReasonNode(q).toolLog == "CALC:2,3"
  {
    CalculateExampleNumbers(q);
    CalculateExampleTrigger(q);
    assert Contains(Lower(q), MathWords[0]);
  }

  /** A trigger word anywhere suffices, and the two numbers are passed in order. */
  lemma ReasonFirstTwoExample(q: string)
    requires q == "I have " + "2" + " absences in " + "3" + " courses, " + "total?"
    ensures ReasonNode(q).toolLog == "CALC:2,3"
  {
    FirstTwoExampleNumbers(q);
    FirstTwoExampleTrigger(q);
    assert Contains(Lower(q), MathWords[2]);
  }

  /** Only the first two numbers count: a third one is found but not passed on. */
  lemma ReasonThirdNumberIgnored(q: string)
    requires q == "add " + "1" + " and " + "2" + " and " + "3"
    ensures FindAll(q) == ["1", "2", "3"]
    ensures ReasonNode(q).toolLog == "CALC:1,2"
  {
    ThreeNumberExampleNumbers(q);
    ThreeNumberExampleTrigger(q);
    assert Contains(Lower(q), MathWords[3]);
  }

  /** A question without numbers needs no calculation. */
  lemma ReasonNoNumberExample(q: string)
    requires q == "What is " + "the exam " + "policy?"
    ensures ReasonNode(q).toolLog == NoTool
  {
    NoNumberExampleNumbers(q);
  }

  /** With a trigger word but a single number, no calculation is requested. */
  lemma ReasonOneNumberExample(q: string)
    requires q == "What is " + "the total " + "fine for " + "3" + " offenses?"
    ensures ReasonNode(q).toolLog == NoTool
  {
    OneNumberExampleNumbers(q);
  }

  /** Multi-digit and decimal operands are passed on whole. */
  lemma ReasonMultiplyExample(q: string)
    requires q == "Multiply 12 by 3.5"
    ensures ReasonNode(q).toolLog == "CALC:12,3.5"
  {
    MultiplyExampleNumbers(q);
    MultiplyExampleTrigger(q);
    assert Contains(Lower(q), MathWords[4]);
  }

  // ---------------------------------------------------------------------- tool

  /** `_, params = log.split(":")` and `n1, n2 = params.split(",")`; `None` where Python raises. */
  function ParseCalc(toolLog: string): Option<(string, string)> {
    var parts := Split(toolLog, ':');
    if |parts| != 2 then None
    else
      var operands := Split(parts[1], ',');
      if |operands| != 2 then None else Some((operands[0], operands[1]))
  }

  /** Parsing a calculation request gives back the two operands it was built from. */
  lemma CalcRoundTrip(a: string, b: string)
    requires ':' !in a && ',' !in a && ':' !in b && ',' !in b
    ensures StartsWith(EncodeCalc(a, b), CalcTag)
    ensures ParseCalc(EncodeCalc(a, b)) == Some((a, b))
  {
    var params := a + "," + b;
    assert EncodeCalc(a, b) == CalcTag + [':'] + params;
    assert ':' !in params;
    SplitAfter(CalcTag, ':', params);
    SplitWithout(params, ':');
    assert params == a + [','] + b;
    SplitAfter(a, ',', b);
    SplitWithout(b, ',');
  }

  datatype ToolUpdate = ToolUpdate(toolLog: string, steps: seq<string>, calcArgs: Option<(string, string)>)

  /**
   * `execute_tool`: no calculation unless the log starts with "CALC"; a log
   * that does not split into two operands, or a failing calculator, gives
   * the error marker. `calcArgs` records the operands the calculator was
   * called with, if it was called.
   */
  function ToolNode(toolLog: string, calculator: (string, string) -> Option<string>): (u: ToolUpdate)
    ensures !StartsWith(toolLog, CalcTag) ==> u == ToolUpdate(NoCalculation, [], None)
    ensures StartsWith(toolLog, CalcTag) ==> u.calcArgs == ParseCalc(toolLog)
    ensures u.calcArgs.Some? ==>
              var (n1, n2) := u.calcArgs.value;
              && |u.steps| == 2 && u.steps[0] == CallingStep(n1, n2)
              && u.toolLog == (if calculator(n1, n2).Some? then calculator(n1, n2).value else CalculationError)
    ensures StartsWith(toolLog, CalcTag) && u.calcArgs.None? ==> u == ToolUpdate(CalculationError, [ToolFailedStep], None)
  {
    if !StartsWith(toolLog, CalcTag) then ToolUpdate(NoCalculation, [], None)
    else
      match ParseCalc(toolLog)
      case None => ToolUpdate(CalculationError, [ToolFailedStep], None)
      case Some((n1, n2)) =>
        var calling := CallingStep(n1, n2);
        match calculator(n1, n2)
        case None => ToolUpdate(CalculationError, [calling, ToolFailedStep], Some((n1, n2)))
        case Some(result) => ToolUpdate(result, [calling, ResultStep(result)], Some((n1, n2)))
  }

  /**
   * Whatever the planner writes the tool node reads back exactly: a request
   * reaches the calculator with the question's first two numbers, and "NONE"
   * never reaches it.
   */
  lemma ReasonToolRoundTrip(question: string, calculator: (string, string) -> Option<string>)
    ensures var t := ToolNode(ReasonNode(question).toolLog, calculator);
            if CalcIntent(question) then t.calcArgs == Some((FindAll(question)[0], FindAll(question)[1])) && |t.steps| == 2
            else t == ToolUpdate(NoCalculation, [], None)
  {
    var nums := FindAll(question);
    if CalcIntent(question) {
      TokenHasNoSeparator(nums[0]);
      TokenHasNoSeparator(nums[1]);
      CalcRoundTrip(nums[0], nums[1]);
    } else {
      assert NoTool[1] != CalcTag[1];
    }
  }

  // ------------------------------------------------------------------ generate

  datatype GenerateUpdate = GenerateUpdate(finalAns: string, steps: seq<string>, prompt: Option<Prompt>)

  /**
   * `generate`: refuse without asking the model when the context is the
   * MISSING sentinel; otherwise ask it with the answer prompt around the
   * whole context and the whole question (`AnswerPromptHolds`), and answer
   * with the stripped text. The tool log is not an input.
   */
  function GenerateNode(context: string, question: string, llm: Prompt -> string): (u: GenerateUpdate)
    ensures u.steps == [SynthesizingStep]
    ensures context == Missing ==> u.finalAns == Refusal && u.prompt == None
    ensures context != Missing ==>
              && u.prompt == Some(AnswerPrompt(context, question))
              && u.finalAns == Strip(llm(u.prompt.value))
  {
    if context == Missing then GenerateUpdate(Refusal, [SynthesizingStep], None)
    else
      var prompt := AnswerPrompt(context, question);
      GenerateUpdate(Strip(llm(prompt)), [SynthesizingStep], Some(prompt))
  }

  // ------------------------------------------------------------------- the run

  function OptionToSeq<T>(o: Option<T>): seq<T> {
    if o.Some? then [o.value] else []
  }

  /**
   * The final state of one request and every oracle call made on its way:
   * the prompts given to the model, the queries sent to `/search` and the
   * operands sent to `/calculate`, each in call order.
   */
  datatype Outcome = Outcome(
    originalQuestion: string,
    searchKeywords: string,
    context: string,
    sources: set<string>,
    toolLog: string,
    finalAns: string,
    thinkingSteps: seq<string>,
    llmPrompts: seq<Prompt>,
    searchQueries: seq<string>,
    calcCalls: seq<(string, string)>)

  /**
   * The compiled graph: preprocess -> retrieve -> reason -> tool -> generate,
   * the same order for every question, each node's trace entries appended
   * after the previous node's.
   */
  function Run(question: string, llm: Prompt -> string, search: string -> SearchReply,
               calculator: (string, string) -> Option<string>): (o: Outcome)
    ensures o.originalQuestion == question
    ensures o.searchQueries == [o.searchKeywords]
    ensures 1 <= |o.llmPrompts| <= 2 && o.llmPrompts[0] == KeywordPrompt(question)
    ensures |o.calcCalls| <= 1
  {
    var p := PreprocessNode(question, llm);
    var r := RetrieveNode(search(p.keywords));
    var c := ReasonNode(question);
    var t := ToolNode(c.toolLog, calculator);
    var g := GenerateNode(r.context, question, llm);
    Outcome(question, p.keywords, r.context, r.sources, t.toolLog, g.finalAns,
            p.steps + r.steps + c.steps + t.steps + g.steps,
            [p.prompt] + OptionToSeq(g.prompt), [p.keywords], OptionToSeq(t.calcArgs))
  }

  /** With no passages the answer is the canned refusal and the model is asked only for keywords. */
  lemma RefusalWithoutDocuments(question: string, llm: Prompt -> string, search: string -> SearchReply,
                                calculator: (string, string) -> Option<string>)
    ensures var o := Run(question, llm, search, calculator);
            var reply := search(o.searchKeywords);
            reply.Reply? && !HasResults(reply) ==>
              o.context == Missing && o.sources == {} && o.finalAns == Refusal && o.llmPrompts == [KeywordPrompt(question)]
  {
  }

  /**
   * A single passage that reads "MISSING" is indistinguishable from no
   * passage at all: the answer is the refusal.
   */
  lemma MissingPassageRefused(question: string, llm: Prompt -> string, search: string -> SearchReply,
                              calculator: (string, string) -> Option<string>)
    ensures var o := Run(question, llm, search, calculator);
            var reply := search(o.searchKeywords);
            reply.Reply? && reply.results == Some([Missing]) ==> o.finalAns == Refusal
  {
  }

  /**
   * When the tool server cannot be reached, the error text is handed to the
   * model as if it were a document, and the model's stripped answer is returned.
   */
  lemma ErrorSentinelReachesModel(question: string, llm: Prompt -> string, search: string -> SearchReply,
                                  calculator: (string, string) -> Option<string>)
    ensures var o := Run(question, llm, search, calculator);
            search(o.searchKeywords).Unreachable? ==>
              && o.context == RetrievalError && o.sources == {}
              && o.llmPrompts == [KeywordPrompt(question), AnswerPrompt(RetrievalError, question)]
              && o.finalAns == Strip(llm(AnswerPrompt(RetrievalError, question)))
  {
    assert RetrievalError != Missing;
  }

  /** A text of several joined passages holds the separator, so it is never the sentinel. */
  lemma JoinedNotMissing(parts: seq<string>)
    requires parts != [] && parts != [Missing]
    ensures Join(parts, PassageSeparator) != Missing
  {
    if |parts| > 1 {
      var joined := Join(parts, PassageSeparator);
      assert joined == parts[0] + PassageSeparator + Join(parts[1..], PassageSeparator);
      assert joined[|parts[0]|] == '\n';
      assert forall i :: 0 <= i < |Missing| ==> Missing[i] != '\n';
    }
  }

  /**
   * Grounding of the two last nodes: retrieved passages other than the lone
   * sentinel make the model be asked with the answer prompt around a context
   * that holds every passage.
   */
  lemma GroundedPrompt(reply: SearchReply, question: string, llm: Prompt -> string)
    requires HasResults(reply) && reply.results.value != [Missing]
    ensures var r := RetrieveNode(reply);
            var g := GenerateNode(r.context, question, llm);
            && (forall i :: 0 <= i < |reply.results.value| ==> Contains(r.context, reply.results.value[i]))
            && g.prompt == Some(AnswerPrompt(r.context, question))
            && g.finalAns == Strip(llm(AnswerPrompt(r.context, question)))
  {
    JoinedNotMissing(reply.results.value);
  }

  /** Every passage the context holds, and the question, are in the text of the answer prompt. */
  lemma PromptHoldsPassages(context: string, question: string, passages: seq<string>)
    requires forall i :: 0 <= i < |passages| ==> Contains(context, passages[i])
    ensures forall i :: 0 <= i < |passages| ==> Contains(AnswerPromptText(context, question), passages[i])
    ensures Contains(AnswerPromptText(context, question), question)
  {
    var text := AnswerPromptText(context, question);
    AnswerPromptHolds(context, question);
    forall i | 0 <= i < |passages| ensures Contains(text, passages[i]) {
      ContainsTransitive(text, context, passages[i]);
    }
  }

  /**
   * Grounding: unless the passages are the single sentinel, the answer is the
   * model's stripped reply to the answer prompt around a context holding
   * every passage (whose text then holds every passage and the question, by
   * `PromptHoldsPassages`).
   */
  lemma GroundedAnswer(question: string, llm: Prompt -> string, search: string -> SearchReply,
                       calculator: (string, string) -> Option<string>)
    ensures var o := Run(question, llm, search, calculator);
            var reply := search(o.searchKeywords);
            HasResults(reply) && reply.results.value != [Missing] ==>
              && o.llmPrompts == [KeywordPrompt(question), AnswerPrompt(o.context, question)]
              && (forall i :: 0 <= i < |reply.results.value| ==> Contains(o.context, reply.results.value[i]))
              && o.finalAns == Strip(llm(AnswerPrompt(o.context, question)))
  {
    var p := PreprocessNode(question, llm);
    var reply := search(p.keywords);
    if HasResults(reply) && reply.results.value != [Missing] {
      GroundedPrompt(reply, question, llm);
    }
  }

  /** Containment is transitive. */
  lemma ContainsTransitive(a: string, b: string, c: string)
    requires Contains(a, b) && Contains(b, c)
    ensures Contains(a, c)
  {
    ContainsIff(a, b);
    ContainsIff(b, c);
    var k :| OccursAt(a, b, k);
    var j :| OccursAt(b, c, j);
    forall i | 0 <= i < |c| ensures a[k + j + i] == c[i] {
      assert a[k + j + i] == a[k..k + |b|][j + i] == b[j + i] == b[j..j + |c|][i];
    }
    assert OccursAt(a, c, k + j);
    ContainsIff(a, c);
  }

  /**
   * The calculator's result never reaches the answer: two runs that differ
   * only in the calculator agree on everything but the tool log, the trace
   * and the calculator calls.
   */
  lemma ToolResultUnused(question: string, llm: Prompt -> string, search: string -> SearchReply,
                         calc1: (string, string) -> Option<string>, calc2: (string, string) -> Option<string>)
    ensures var o1 := Run(question, llm, search, calc1);
            var o2 := Run(question, llm, search, calc2);
            && o1.finalAns == o2.finalAns && o1.context == o2.context && o1.sources == o2.sources
            && o1.searchKeywords == o2.searchKeywords && o1.llmPrompts == o2.llmPrompts
            && o1.calcCalls == o2.calcCalls
  {
  }

  /** The search query is never empty for a non-empty question. */
  lemma SearchQueryNonEmpty(question: string, llm: Prompt -> string, search: string -> SearchReply,
                            calculator: (string, string) -> Option<string>)
    requires question != []
    ensures Run(question, llm, search, calculator).searchQueries[0] != []
  {
  }

  /**
   * The calculator is called once, with the question's first two numbers,
   * exactly when the question asks for a calculation, and never otherwise;
   * the final tool log is its reply, the error marker, or "No calculation needed.".
   */
  lemma CalculatorGetsFirstTwoNumbers(question: string, llm: Prompt -> string, search: string -> SearchReply,
                                      calculator: (string, string) -> Option<string>)
    ensures var o := Run(question, llm, search, calculator);
            var nums := FindAll(question);
            if CalcIntent(question) then
              && o.calcCalls == [(nums[0], nums[1])]
              && o.toolLog == (if calculator(nums[0], nums[1]).Some? then calculator(nums[0], nums[1]).value else CalculationError)
            else
              o.calcCalls == [] && o.toolLog == NoCalculation
  {
    ReasonToolRoundTrip(question, calculator);
  }

  /**
   * The trace: the router entry first, the retrieval entries from the third,
   * the planner's verdict fifth and the generator's entry last; eight entries
   * when a calculation is requested and six otherwise, whatever the oracles do.
   */
  lemma TraceShape(question: string, llm: Prompt -> string, search: string -> SearchReply,
                   calculator: (string, string) -> Option<string>)
    ensures var steps := Run(question, llm, search, calculator).thinkingSteps;
            && |steps| == (if CalcIntent(question) then 8 else 6)
            && steps[0] == RouterStep(question)
            && steps[2] == SearchingStep
            && steps[4] == (if CalcIntent(question) then CalcDetectedStep else NoCalcStep)
            && steps[|steps| - 1] == SynthesizingStep
  {
    var p := PreprocessNode(question, llm);
    var r := RetrieveNode(search(p.keywords));
    var c := ReasonNode(question);
    var t := ToolNode(c.toolLog, calculator);
    var g := GenerateNode(r.context, question, llm);
    ReasonToolRoundTrip(question, calculator);
    assert |t.steps| == if CalcIntent(question) then 2 else 0;
    TraceIndices(p.steps, r.steps, c.steps, t.steps, g.steps);
  }

  lemma TraceIndices(a: seq<string>, b: seq<string>, c: seq<string>, d: seq<string>, e: seq<string>)
    requires |a| == 2 && |b| == 2 && |c| == 1 && |e| == 1
    ensures var s := a + b + c + d + e;
            |s| == 6 + |d| && s[0] == a[0] && s[2] == b[0] && s[4] == c[0] && s[|s| - 1] == e[0]
  {
  }

  /**
   * The trace of the composed run read stage by stage: the trace after any
   * stage is a prefix of the final trace, which is the preprocess entries,
   * then the retrieval ones, then the planner's, the tool's and the
   * generator's. The last conjunct is how `Run` builds the trace; that each
   * node extends the shared trace in place, and only at its end, is stated
   * by the `Agent.AgentState` methods (`thinkingSteps == old(thinkingSteps)
   * + u.steps`) and connected to `Run` by `Agent.Invoke`.
   */
  lemma TraceIsConcatenation(question: string, llm: Prompt -> string, search: string -> SearchReply,
                             calculator: (string, string) -> Option<string>)
    ensures var o := Run(question, llm, search, calculator);
            var p := PreprocessNode(question, llm);
            var r := RetrieveNode(search(p.keywords));
            var c := ReasonNode(question);
            var t := ToolNode(c.toolLog, calculator);
            && p.steps <= o.thinkingSteps
            && p.steps + r.steps <= o.thinkingSteps
            && p.steps + r.steps + c.steps <= o.thinkingSteps
            && p.steps + r.steps + c.steps + t.steps <= o.thinkingSteps
            && o.thinkingSteps == p.steps + r.steps + c.steps + t.steps + [SynthesizingStep]
  {
  }
}
