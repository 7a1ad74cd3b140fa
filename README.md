# A verified model of the EWU policy assistant

The EWU AI Engine answers questions about university policy. A chat page
hands each question to an agent, and the agent runs five nodes in a fixed
order:

1. **preprocess** asks the language model for search keywords.
2. **retrieve** sends those keywords to the tool server's `/search` endpoint.
3. **reason** decides from the question alone whether a calculation is asked for.
4. **tool** calls the `/calculate` endpoint for such a calculation.
5. **generate** refuses when nothing was found, and otherwise asks the model
   for an answer grounded in the retrieved passages.

Each node appends entries to a reasoning trace that the page shows next to
the answer. The tool server reranks the vector index's candidates with a
cross-encoder. It keeps at most five of them whose score lies above a soft
floor.

The model is in seven modules:

- `Wrappers`: `Option`.
- `Text`: the Python string operations the agent uses:
  - `strip` with Python's whitespace set;
  - `lower`;
  - the substring test `in`;
  - `startswith`;
  - `split` and `join`;
  - `str(n)`.
- `NumberPattern`: `re.findall(r"[-+]?\d*\.\d+|\d+", q)`, scanned leftmost
  first with the first alternative tried first, and the digit test.
- `ReasonExampleFacts`: the worked numbers and trigger words of a few
  planner questions.
- `Server`:
  - `search_tool`'s pairing, stable descending sort, top-five cut, threshold
    and selection loop;
  - `calculate_tool` as a product.
- `Nodes`: each node as a function of the state it reads and of the oracles
  it consults, the composed run, and the properties of the whole run.
- `Agent`: the agent state as a class whose fields the node methods
  overwrite, and whose trace they extend in place. Each method is proved to
  leave the state the `Nodes` function describes. `Invoke` is proved to
  leave exactly the composed run.

The oracles are parameters:

- `llm: Prompt -> string` is the language model. It gets the prompt as a
  value; `PromptText` gives the exact text sent. Any model of the text is a
  model of this kind.
- `search: string -> SearchReply` is `/search` as the client sees it.
  `Unreachable` stands for any exception in the request or the decoding.
  Otherwise the reply carries `results` and `metadatas`, each possibly
  absent.
- `calculator: (string, string) -> Option<string>` stands for the client's
  `float()` of the two operands, the `/calculate` request and the reading of
  its `msg` field. `None` stands for any exception on that path.
- `similaritySearch` and `predict` are the vector index and the
  cross-encoder of the server.

The `Agent` class and the `Outcome` record log every oracle call: the
prompts, the search queries and the calculator operands. This is what the
"the model is not asked" and "the calculator is not called" properties are
stated with.

The model follows the code where a reader might expect otherwise:

- An integer keeps no sign. `"-3"` yields `"3"`, not a signed integer
  `"-3"`: only the decimal alternative of the pattern takes a sign.
- The tool log without a calculation is `"No calculation needed."`,
  capitalised, not `"no calculation needed."`.
- When `metadatas` is absent the sources are empty, even though the
  context holds passages.
- A single passage that reads `MISSING` is taken for the sentinel and
  refused, like no passage at all.

## Model

| member | source | states |
|---|---|---|
| `Text.StripSpec` | app.py:59 | `strip()` leaves a slice of the text that neither starts nor ends with whitespace; everything cut off on both sides is whitespace |
| `Text.StripEmptyIff` | app.py:59-61 | the stripped reply is empty exactly when the reply is all whitespace, which is when the keyword fallback fires |
| `Text.StripIdempotent` | app.py:162 | stripping the model's answer again changes nothing |
| `Text.Lower` | app.py:95 | `lower()` keeps the length and maps each character on its own (ASCII letters only) |
| `Text.LowerAppend` | app.py:95 | lower-casing distributes over concatenation |
| `Text.ContainsIff` | app.py:102 | `w in q` holds exactly when `w` occurs at some offset of `q` |
| `Text.Split` | app.py:117-118 | `split(sep)` yields at least one part, and no part holds the separator |
| `Text.SplitJoin` | app.py:117-118 | joining the parts of `split(sep)` with `sep` gives the text back |
| `NumberPattern.HasDigitIff` | app.py:99 | `any(char.isdigit() for char in q)` holds exactly when some position holds a digit |
| `NumberPattern.MatchEnd` | app.py:103 | a match starting at `i` ends inside the text, and a digit at `i` always starts one |
| `NumberPattern.MatchIsNumber` | app.py:103 | what a match covers is `\d+` or `[-+]?\d*\.\d+` |
| `NumberPattern.FindAll` | app.py:103 | every string `re.findall` returns is a match of the pattern |
| `NumberPattern.MatchMaximal` | app.py:103 | the match at a position is the longest number token starting there, and where no match starts no token does |
| `NumberPattern.FindAllLeftmostLongest` | app.py:103-106 | the results are the texts of spans of the question that run left to right without overlapping; each is the longest token at its start, and no token starts outside them, so `nums[0]` and `nums[1]` are the first two numbers read whole |
| `NumberPattern.MultiDigitAndDecimal` | app.py:103 | `"12 and 3.5"` yields `"12"` and `"3.5"`: a match takes all its digits and a decimal its fraction |
| `NumberPattern.TokenHasNoSeparator` | app.py:103-118 | no match contains `:` or `,`, so the tool log's two splits cannot cut one |
| `NumberPattern.NumbersIffDigit` | app.py:99-103 | the pattern finds a number exactly when the text has a digit, so the digit test adds nothing to "two matches" |
| `NumberPattern.FindAllLower` | app.py:95-103 | lower-casing the question first changes none of the numbers found |
| `NumberPattern.FindAllTwoDigits` | app.py:103-106 | two lone digits separated by plain text are found as exactly those two numbers, in order |
| `NumberPattern.SignedIntegerLosesSign` | app.py:103 | `"-3"` yields `"3"`: the sign belongs only to the decimal alternative |
| `NumberPattern.SignedDecimalKeepsSign` | app.py:103 | `"-.5"` yields `"-.5"` |
| `Server.Pairs` | server.py:48 | one (query, passage text) pair per candidate, in order |
| `Server.Zip` | server.py:52 | `zip` pairs score and passage position by position and stops at the shorter list |
| `Server.InsertSorted` | server.py:52 | inserting into a descending list keeps it descending and adds exactly the new entry |
| `Server.SortByScore` | server.py:52 | the sorted list is in descending score order and is a permutation of its input |
| `Server.InsertWithScore` | server.py:52 | an inserted entry goes in front of every entry with its own score |
| `Server.SortIsStable` | server.py:52 | entries with equal scores keep their retrieval order (Python's sort is stable under `reverse=True`) |
| `Server.Take` | server.py:58 | `s[:5]` is a prefix of at most five entries |
| `Server.AboveThreshold` | server.py:58-59 | every kept entry scores above -10.0 |
| `Server.Selected` | server.py:58-61 | at most five entries are returned, each scoring above -10.0 |
| `Server.AboveThresholdSplit` | server.py:52-59 | on a descending list the entries above the floor are a prefix, and all later entries are at or below it |
| `Server.TruncateThenFilter` | server.py:52-61 | on the sorted list, cutting to five and then filtering equals filtering and then cutting to five |
| `Server.SelectedIsPrefix` | server.py:52-61 | what `/search` returns is a prefix of the sorted candidate list |
| `Server.Ranked` | server.py:42-52 | the ranked candidates are in descending score order |
| `Server.SelectionOrder` | server.py:52-61 | the returned passages are in non-increasing score order, and equal scores keep the order the index returned them in |
| `Server.SelectValid` | server.py:54-61 | the loop builds two parallel lists, of equal length, holding the text and the metadata of each selected entry at the same index |
| `Server.SearchTool` | server.py:37-66 | no candidates give two empty lists; otherwise the lists are the texts and metadata of the selection of the ranked candidates |
| `Server.CalculateTool` | server.py:68-72 | the message carries the total; a zero operand gives zero, and multiplying by one gives the other operand |
| `Server.CalculateIsProduct` | server.py:71 | the total does not depend on the operands' order, and for 2 and 3 it is 6, not 5 |
| `Nodes.AnswerPromptHolds` | app.py:142-159 | the answer prompt's text holds the whole context and the whole question verbatim |
| `Nodes.PreprocessNode` | app.py:33-64 | the keywords are the stripped model reply, or the question when the reply is all whitespace, so they are not empty for a non-empty question; two trace entries are added |
| `Nodes.Filenames` | app.py:83-84 | the sources are exactly the distinct `filename` values, with `Unknown` where the key is absent |
| `Nodes.RetrieveNode` | app.py:66-90 | an exception gives the error sentinel and no sources; absent or empty results give `MISSING` and no sources; otherwise the context is the passages joined by a blank line and holds each of them, and the sources are the file names of the metadata |
| `Nodes.JoinContainsParts` | app.py:79 | every passage is contained verbatim in the joined context |
| `Nodes.ServerSelectionRetrieved` | app.py:72-87 | fed the server's selection from a ranked list, the client writes `MISSING` when nothing is selected, and otherwise a context holding every selected passage, the file names of the selected metadata as sources, and a count of at most five clauses |
| `Nodes.AnyContained` | app.py:102 | `any(w in q for w in words)` holds exactly when some word occurs in `q` |
| `Nodes.ReasonNode` | app.py:92-109 | the tool log is `CALC:n1,n2` with the first two numbers exactly when the lower-cased question has a trigger word and two numbers; it is `NONE` otherwise, with the matching planner entry |
| `Nodes.ReasonCalculateExample` | app.py:100-106 | "Calculate 2 plus 3" asks for a calculation on 2 and 3 |
| `Nodes.ReasonFirstTwoExample` | app.py:102-106 | a trailing "total" triggers too, and the question's two numbers are passed in order |
| `Nodes.ReasonThirdNumberIgnored` | app.py:102-106 | "add 1 and 2 and 3" finds three numbers and asks for a calculation on the first two only |
| `Nodes.ReasonNoNumberExample` | app.py:99-109 | a question without digits asks for no calculation |
| `Nodes.ReasonOneNumberExample` | app.py:102-109 | a trigger word with a single number asks for no calculation |
| `Nodes.ReasonMultiplyExample` | app.py:102-106 | "Multiply 12 by 3.5" asks for a calculation on 12 and 3.5, whole |
| `Nodes.CalcRoundTrip` | app.py:106-118 | parsing `CALC:a,b` gives back exactly `a` and `b` when neither holds `:` or `,` |
| `Nodes.ToolNode` | app.py:111-130 | a log not starting with `CALC` gives "No calculation needed." without a calculator call; a log that does not split into two operands, or a failing call, gives "Calculation Error"; otherwise the log is the calculator's message |
| `Nodes.ReasonToolRoundTrip` | app.py:103-125 | the tool node reads back exactly what the planner wrote: a request reaches the calculator with the first two numbers, and `NONE` never reaches it |
| `Nodes.GenerateNode` | app.py:132-164 | the `MISSING` context gives the refusal without asking the model; any other context asks it with the answer prompt around that context and the question, and answers with the stripped reply |
| `Nodes.Run` | app.py:167-180 | one run asks `/search` once with the keywords, asks the model first with the keyword prompt and at most once more, and calls the calculator at most once |
| `Nodes.RefusalWithoutDocuments` | app.py:75-77 | with absent or empty results the answer is the refusal, the sources are empty and the model is asked only for keywords |
| `Nodes.MissingPassageRefused` | app.py:138-139 | a single passage reading `MISSING` is refused like no passage at all |
| `Nodes.ErrorSentinelReachesModel` | app.py:88-90 | when the server is unreachable, the error text is handed to the model as the context, and its stripped answer is returned |
| `Nodes.JoinedNotMissing` | app.py:79-138 | a join of passages other than the lone sentinel is never the sentinel |
| `Nodes.GroundedPrompt` | app.py:138-162 | with real passages, the model is asked with the answer prompt around a context holding every passage |
| `Nodes.PromptHoldsPassages` | app.py:152-156 | the answer prompt's text holds every passage the context holds, and the question |
| `Nodes.GroundedAnswer` | app.py:79-162 | over a whole run with real passages: two prompts, a context holding every passage, and the answer is the stripped reply to the answer prompt |
| `Nodes.ToolResultUnused` | app.py:132-164 | the calculator's result never reaches the answer, the context, the sources or the prompts |
| `Nodes.SearchQueryNonEmpty` | app.py:61-72 | a non-empty question is never searched for as an empty query |
| `Nodes.CalculatorGetsFirstTwoNumbers` | app.py:102-130 | the calculator is called once, with the first two numbers, exactly when a calculation is asked for, and never otherwise |
| `Nodes.TraceShape` | app.py:37-135 | the trace has eight entries with a calculation and six without, with the router entry first and the generator entry last |
| `Nodes.TraceIsConcatenation` | app.py:174-179 | the trace after every stage is a prefix of the final one, in graph order; that each node appends in place is stated by the `Agent.AgentState` methods and `Agent.Invoke` |
| `Agent.AgentState.constructor` | app.py:201-209 | the initial state: the question, every other field empty |
| `Agent.AgentState.Preprocess` | app.py:33-64 | writes the keywords of `PreprocessNode`, appends its two entries and logs its prompt; nothing else changes |
| `Agent.AgentState.Retrieve` | app.py:66-90 | writes the context and sources of `RetrieveNode` for the reply to the keywords, appends its entries and logs the query |
| `Agent.AgentState.Reason` | app.py:92-109 | writes the tool log of `ReasonNode` and appends its entry |
| `Agent.AgentState.ExecuteTool` | app.py:111-130 | writes the tool log of `ToolNode`, appends its entries and logs the calculator call |
| `Agent.AgentState.Generate` | app.py:132-164 | writes the answer of `GenerateNode`, appends its entry and logs its prompt |
| `Agent.Invoke` | app.py:167-211 | the five methods in graph order leave a fresh state that is exactly the composed run |
| `Agent.Answer` | app.py:211-227 | the answer, trace and sources the page shows are those of the run; an unreachable server gives the model's answer to the error context, and no results give the refusal |

## Left out

- The Streamlit page, the chat history and the display of the trace and the sources: presentation only. The page's `src.split("/")[-1]` is not modelled.
- Loading the model and its sampling parameters (`max_tokens`, `stop`, `temperature`): the model is an oracle from the prompt to its text.
- The language model's non-determinism: the oracle is a function, so two calls with the same prompt give the same text.
- Model calls that fail and requests that never answer: the two model calls and their `out["choices"][0]["text"]` lookups are not inside a `try`, so a failure there ends the request with an exception, and neither `requests.post` sets a timeout, so the agent can wait forever. The oracles always return, so the properties proved about `Run`, `Invoke` and `Answer` are about runs that complete.
- HTTP transport and the FastAPI and uvicorn setup: each call is an oracle, and any exception is one `Unreachable` or `None` outcome. The console line `search_tool` prints for each query (server.py:39) is output only and is not modelled.
- A reply that decodes to something other than a JSON object: the model's `SearchReply` covers an object with `results` and `metadatas`, each present or absent, and any exception.
- Chroma, the embeddings and the CrossEncoder: `similaritySearch` and `predict` are oracles returning sequences.
- ingest.py is not part of this model: it is PDF loading and persistence.
- The reranker's float scores are `real`: only comparisons are used.
- Float parsing and formatting: `float(n1)` sits inside the `calculator` oracle, and the message's number is a `format` parameter.
- `Server.CalculateTool`: the total is an exact product of reals, without floating-point rounding.
- Non-ASCII digits and letters: `isdigit`, `\d` and `lower()` are modelled on ASCII only. `strip()` uses Python's full whitespace set.
- Metadata values are modelled as strings: a loaded document's metadata can also hold numbers (such as a page number), but only `filename` is read.
- The order of the sources: `list(set(...))` has no defined order, so the sources are a `set`.
- The langgraph library: the fixed graph is modelled directly as the composition `Run` and the method `Invoke`.
- The exact prompt and trace text: the prompt is given to the model as a `Prompt` value. The prompt text is spelled out, and only what it contains is proved.
- `Server.AboveThreshold`: the contract does not state that each kept entry is an entry of the input. `Server.TruncateThenFilter` and `Server.SelectedIsPrefix` state the stronger prefix fact.
