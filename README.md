# simple-chatbot in Dafny

This project models the core of *simple-chatbot*, a terminal chatbot with three parts:

- **`SimpleChatbot`** (`src/main.py`) decides which helper agents to create. It answers a question by trying the RAG agent first, then the tool-calling agent, then a plain chat call. It also handles the `add_doc`, `add_file`, `list_docs` and `clear_docs` commands and classifies each line typed into the chat loop.
- **`FunctionCallerAgent`** (`src/function_agent.py`) runs a two-node graph (agent, tools) over a growing message list until the model stops asking for tools. It has a whitelisting `calculator` tool.
- **`RAGAgent`** (`src/rag_agent.py`) stores documents in a vector collection. It retrieves the nearest documents for a question and builds a prompt that carries them as context.

The project has five modules:

- **`PyText`** (`text.dfy`): the Python string operations the source relies on: `isspace`, `strip`, `startswith`, `join`, `str(n)` and the `lower()` comparison with "quit".
- **`PyPath`** (`path.dfy`): the parts of `pathlib` used to name a file document. These are `str(path)`, `.name`, `.suffix` and `.stem`, following the POSIX rules of Python 3.12.
- **`FunctionAgent`**, **`RagAgent`** and **`Chatbot`**: one module per source file.

Every external call is a parameter that says what the call gives back:

- The chat model, LangGraph's tool node, `eval` and the embedder with its nearest-neighbour query are parameters of type `Attempt<T>`. An `Attempt<T>` is either `Returned(v)` or `Raised(str(e))`.
- Each vector-store call that changes or counts the collection is a `RagAgent.StoreCall`: `Completes` or `Throws(str(e))`. The store's `count()` and `add()` are separate parameters, since they can fail independently. In `add_document` the `add` outcome also stands for the embedder's `encode(content)` call just before it (`src/rag_agent.py:61`): either raising adds nothing and lets the exception through.
- What the store answers to a query or a `get` is a `RagAgent.QueryResult` or a `RagAgent.GetResult`. Reading a file is a `RagAgent.FileState`: missing, unreadable with an error, or its text.

- The vector collection is the field `records` of class `RagAgent.RagAgent`, listed in store order. The methods that change it declare `modifies`.
- The tool graph is the specification function `FunctionAgent.Run`. The method `RunGraph` runs it as a `while` loop.

Two places where the code does not do what its own text says:

- The calculator's whitelist is `set("0123456789+-*/().\\s")` (`src/function_agent.py:27`). It holds a backslash and the letter `s` rather than whitespace. The tool's docstring gives `"2 + 3 * 4"` as an example (`src/function_agent.py:23`), yet every expression with a space is rejected (see Findings).
- `SimpleChatbot.generate_response` wraps the RAG call in an `except` branch whose message says "falling back to function agent or regular chat" (`src/main.py:46-49`). That branch is never taken: `RAGAgent.generate_response` catches every exception itself and returns an error string (`src/rag_agent.py:186-187`). So when RAG is active, the RAG agent's answer is always returned. `Chatbot.RagErrorIsFinal` states this.

## Model

| member | source | states |
|---|---|---|
| PyText.Strip | src/main.py:91 | the stripped line is a slice of the input with only whitespace before and after it; it is empty exactly when the input is all whitespace, and otherwise starts and ends with a non-whitespace character |
| PyText.StripIdempotent | src/main.py:91 | stripping an already stripped line changes nothing |
| PyText.NatToStringInjective | src/rag_agent.py:55 | `str(n)` determines `n`, so distinct counts give distinct id suffixes |
| PyText.JoinEmptyIff | src/main.py:77-78 | `" and ".join` of non-empty feature names is empty exactly when there are none |
| PyText.LowerAscii | src/main.py:93 | lower-casing keeps the length and lowers exactly `A`-`Z`, which is what makes `lower() == "quit"` hold for exactly the 16 casings of "quit" (`Chatbot.QuitInAnyCase`) |
| PyPath.PathText | src/rag_agent.py:97 | `str(Path(p))` is never empty |
| PyPath.Name | src/rag_agent.py:98 | the file name is the path's last named component, or "" when there is none, and holds no `/` |
| PyPath.StemSuffixSplit | src/rag_agent.py:99-103 | name == stem + suffix; a non-empty suffix is a dot, at least one character and no other dot |
| FunctionAgent.Calculator | src/function_agent.py:19-34 | a non-whitelisted expression gives the whitelist error; otherwise `str(eval(e))`, or "Error: " followed by the exception's text |
| FunctionAgent.CalculatorRejectsIff | src/function_agent.py:27-29 | "Error: Invalid characters in expression" comes back if and only if some character is outside the whitelist |
| FunctionAgent.RejectedNeverEvaluated | src/function_agent.py:28-31 | a rejected expression never reaches `eval`: the result is the same whatever `eval` would do |
| FunctionAgent.CalculatorOutcomes | src/function_agent.py:25-34 | for a whitelisted expression the result is `str(eval(e))`, or "Error: " + str(exception); the tool never raises |
| FunctionAgent.SpaceRejected | src/function_agent.py:23-29 | any expression with a space, including the tool's documented example "2 + 3 * 4", is rejected |
| FunctionAgent.IntendedCalculatorAcceptsExample | src/function_agent.py:18-29 | with whitespace allowed as intended, "2 + 3 * 4" reaches `eval`, while `s` is rejected |
| FunctionAgent.IntendedAgreesOnOperators | src/function_agent.py:27-29 | on expressions made only of digits, operators, parentheses and dots, the intended and the written whitelist agree |
| FunctionAgent.ToolNames | src/function_agent.py:116 | one name per tool, in registration order, so the agent's two tools are listed as `get_current_time` then `calculator` |
| FunctionAgent.ShouldContinue | src/function_agent.py:57-66 | routes to tools if and only if the last message has a non-empty list of tool calls, otherwise to END |
| FunctionAgent.Successor | src/function_agent.py:81-84 | START and tools lead to agent; only agent can lead to END, as `should_continue` decides |
| FunctionAgent.Run | src/function_agent.py:68-84 | the graph only appends messages and nodes; a finished run ends with an agent step |
| FunctionAgent.RunAlternates | src/function_agent.py:78-84 | the visited nodes alternate agent, tools, agent, ...; a finished run has an odd number of steps, the last one agent |
| FunctionAgent.RunEndsWithFinalReply | src/function_agent.py:57-72 | a finished run's last message is the model's reply to all messages before it, and it routes to END |
| FunctionAgent.AgentStepAppendsReply | src/function_agent.py:68-72 | an agent step appends exactly the model's reply |
| FunctionAgent.RunFuelMonotone | src/function_agent.py:81-86 | more fuel does not change a run that finished or failed |
| FunctionAgent.RunGraph | src/function_agent.py:105 | the loop's result equals the graph's specification `Run` |
| FunctionAgent.Seed | src/function_agent.py:92-102 | the initial state is the system prompt followed by the user's message |
| FunctionAgent.InvokeResult | src/function_agent.py:88-112 | unfinished exactly when the graph ran out of fuel; a failed run, at any model or tool step, answers "Error processing request: " + str(e); a finished run answers the content of the model's last reply, which routes to END |
| FunctionAgent.InvokeOneRoundTrip | src/function_agent.py:88-109 | a model that answers without tool calls gives one agent step, and `invoke` returns its content |
| FunctionAgent.InvokeOneToolRound | src/function_agent.py:88-109 | one tool call gives the steps agent, tools, agent; `invoke` returns the final reply's content |
| FunctionAgent.InvokeModelFailure | src/function_agent.py:111-112 | a model exception becomes "Error processing request: " + str(e) |
| FunctionAgent.FunctionCallerAgent.constructor | src/function_agent.py:40-46 | the agent keeps the model name and registers `get_current_time` then `calculator` |
| FunctionAgent.FunctionCallerAgent.AvailableTools | src/function_agent.py:114-116 | the registered tools' names, in order; after construction this is `["get_current_time", "calculator"]` (see the constructor's contract) |
| FunctionAgent.FunctionCallerAgent.Invoke | src/function_agent.py:88-112 | the reply is that of the graph's specification; it is unfinished exactly when the fuel ran out |
| RagAgent.DefaultDocIdInjective | src/rag_agent.py:54-55 | "doc_" + count gives equal ids exactly for equal counts |
| RagAgent.WithoutAppend | src/rag_agent.py:213-217 | deleting from a concatenation deletes from each part: the kept documents stay in order with their multiplicity |
| RagAgent.DefaultIdCanCollide | src/rag_agent.py:54-55 | after a delete, the next default id can equal one still stored |
| RagAgent.FileDocId | src/rag_agent.py:103 | the id is "file_", the stem, "_" and the decimal count, each at its place |
| RagAgent.FileMetadata | src/rag_agent.py:92-101 | the caller's metadata with `source`, `filename` and `file_type` set from the path, all other keys kept |
| RagAgent.Without | src/rag_agent.py:213-217 | deleting an id removes exactly the documents with that id and keeps every other document |
| RagAgent.Hits | src/rag_agent.py:124-140 | one hit per document of the first row, each as the mapping of that index, or the first exception |
| RagAgent.Retrieval | src/rag_agent.py:106-142 | a failing search is passed on; a successful mapping has one hit per document of the first row |
| RagAgent.RetrievalInStoreOrder | src/rag_agent.py:122-142 | the retrieved documents are the first row's documents, in the store's order; an empty row gives none |
| RagAgent.RetrievalDefaults | src/rag_agent.py:128-138 | an empty metadata row gives `{}`, an empty distance row 0.0 and an empty id row "doc_" + index |
| RagAgent.RetrievalOfParallelRows | src/rag_agent.py:123-140 | rows of equal length never raise, and each hit takes its id, metadata and distance from the same index |
| RagAgent.ContextPart | src/rag_agent.py:156-158 | each context part starts with "Source: " |
| RagAgent.RagPrompt | src/rag_agent.py:147-176 | without context, or with no hits, the prompt is the query; with context it fails exactly when retrieval failed, with the same error |
| RagAgent.RagReply | src/rag_agent.py:179-187 | the chat service's text, or "Error generating RAG response: " followed by the retrieval's or the chat service's exception |
| RagAgent.ContentInContext | src/rag_agent.py:154-161 | every retrieved document's content occurs in the context text |
| RagAgent.ContextInPrompt | src/rag_agent.py:164-174 | whatever occurs in a non-empty context occurs in the prompt |
| RagAgent.PromptShape | src/rag_agent.py:149-176 | without context or hits the prompt is the query; otherwise it starts with the instructions, contains every hit, and ends with the question and "Answer:" |
| RagAgent.Preview | src/rag_agent.py:201 | content of at most 200 characters is kept; longer content becomes its first 200 characters and "..." |
| RagAgent.StoreGet | src/rag_agent.py:193 | the store's `get` answer has one id, document and metadata entry per stored document |
| RagAgent.Summaries | src/rag_agent.py:196-206 | one summary per document, each being that index's mapping, or none once one raises |
| RagAgent.Listing | src/rag_agent.py:189-211 | a non-empty listing has one summary per document, each the mapping of its index |
| RagAgent.ListingOfCollection | src/rag_agent.py:189-208 | the listing has one entry per stored document, in order, with its id, preview and metadata |
| RagAgent.AddThenList | src/rag_agent.py:196-206 | a document just added is listed last, under its id, with a preview that starts with its content |
| RagAgent.RagAgent.constructor | src/rag_agent.py:15-24 | the agent keeps model name, collection name and top-k, and opens the collection with what it already stores |
| RagAgent.RagAgent.AddDocument | src/rag_agent.py:44-71 | blank content raises ValueError and adds nothing; a raising `count()` (made only without an id) or `add()` adds nothing; otherwise one document is added under the given id or "doc_" + count, with `{}` as default metadata |
| RagAgent.RagAgent.AddDocumentFromFile | src/rag_agent.py:73-104 | a missing file raises FileNotFoundError; a raising `count()` wins over a blank file, because the id is built before the blank check; otherwise the text is added under "file_" + stem + "_" + count, with the path's metadata |
| RagAgent.RagAgent.RetrieveDocuments | src/rag_agent.py:106-142 | queries with the given top-k, or the agent's own, and returns the retrieval of the store's answer |
| RagAgent.RagAgent.GenerateResponse | src/rag_agent.py:144-187 | at most one chat call, with the prompt built from the retrieved context; every exception becomes "Error generating RAG response: " + str(e) |
| RagAgent.RagAgent.BuildContext | src/rag_agent.py:154-161 | the loop builds exactly the context text: one "Source: ...\nContent: ..." part per retrieved document, in order, joined by a blank line |
| RagAgent.RagAgent.ListDocuments | src/rag_agent.py:189-211 | the listing of the collection, or [] when the store raises |
| RagAgent.RagAgent.DeleteDocument | src/rag_agent.py:213-220 | True and the id's documents gone, or False and nothing changed |
| RagAgent.RagAgent.ClearCollection | src/rag_agent.py:222-234 | True and an empty collection, or False and nothing changed |
| RagAgent.RagAgent.CollectionStats | src/rag_agent.py:236-246 | the document count, the collection name and the embedding dimension, or the error |
| Chatbot.FirstAnswer | src/main.py:39-66 | an unfinished reply can only come from the tool-calling agent |
| Chatbot.FirstAnswerOrder | src/main.py:39-66 | the first active strategy that does not raise answers; plain chat is last and its failure becomes "Error generating response: " + str(e) |
| Chatbot.RagErrorIsFinal | src/main.py:43-49 | a RAG retrieval failure ends the turn with the RAG error text; the later strategies are never consulted |
| Chatbot.ParseCommand | src/main.py:111-147 | a command is recognised if and only if the line starts with "add_doc " or "add_file ", or is "list_docs" or "clear_docs"; payloads are the stripped rest; "list_docs" lists and "clear_docs" clears |
| Chatbot.Classify | src/main.py:91-104 | a line is handled as a RAG command exactly when RAG is active and the stripped line parses as one; a question is the stripped line |
| Chatbot.QuitInAnyCase | src/main.py:91-95 | a line exits if and only if, stripped, it spells "quit" in any mix of upper- and lower-case letters |
| Chatbot.LoopCommandsHavePayload | src/main.py:91-124 | a command line from the chat loop always has a non-empty payload, so the usage branches are unreachable from the loop |
| Chatbot.BareAddDocIsAsked | src/main.py:91-103 | a bare "add_doc" is not a command and goes to the model |
| Chatbot.AgentStatus | src/main.py:71-80 | the status starts with "with " exactly when some feature is enabled, and is "in basic mode" otherwise |
| Chatbot.AgentStatusCases | src/main.py:71-80 | the four status texts for the four flag combinations |
| Chatbot.DocumentLines | src/main.py:139-142 | two printed lines per listed document |
| Chatbot.DocumentLinesAt | src/main.py:139-142 | document i is printed as number first + i with its id and source, then its preview |
| Chatbot.ListingLines | src/main.py:135-144 | an empty listing prints "No documents in collection"; otherwise a header and two lines per document |
| Chatbot.ListDocsShowsEveryDocument | src/main.py:135-144 | `list_docs` prints the document count, then every stored document's id and source, numbered from 1 in store order |
| Chatbot.SimpleChatbot.constructor | src/main.py:17-37 | an agent exists if and only if it was asked for and its module could be imported; the RAG agent uses the default collection and top-k |
| Chatbot.SimpleChatbot.GenerateResponse | src/main.py:39-66 | the reply is the fallback chain applied to the active strategies; with RAG active it is always the RAG agent's answer |
| Chatbot.SimpleChatbot.HandleRagCommands | src/main.py:106-154 | True if and only if RAG is active and the line is a command; otherwise nothing is printed or changed |
| Chatbot.SimpleChatbot.RunCommand | src/main.py:111-152 | each command's printed lines and its effect on the collection; an empty payload prints the usage and makes no store call; for add_file a raising `count()` is reported before a blank file |
| Chatbot.SimpleChatbot.Status | src/main.py:71-80 | the status line starts with "with " exactly when some feature flag is set |

## Left out

- Terminal input and output: `input()` and `print` are not modelled. The commands return the lines they would print. Messages printed only as logging (for example "RAG agent failed: ...") are dropped.
- `main()` (`src/main.py:157-180`) is not modelled. It covers the Ollama availability check, the command-line flags and the start-up banner.
- `get_current_time` reads the clock and is left out. The tool appears only by name in the tool registry.
- `eval` is an oracle parameter. Python's expression semantics are not modelled.
- `ToolNode` (LangGraph) is an oracle. The model does not check that tool results pair with tool-call ids.
- `FunctionAgent.FunctionCallerAgent.Invoke`: the graph gets at most `fuel` agent steps, and `Unfinished` stands for a run that would go on. LangGraph's own recursion limit is not modelled: at that limit the source raises, and `invoke` returns "Error processing request: ..." instead.
- The embedding model and the nearest-neighbour search are one oracle, `search(query, top_k)`. Nothing is claimed about the order of distances or about how many hits come back.
- `RagAgent.RagAgent.AddDocumentFromFile`: the UTF-8 read with its Latin-1 fallback is one oracle. That oracle returns the file's text, reports it missing, or reports the read as raising. The model also does not update the caller's own metadata dictionary in place.
- `RagAgent.RagAgent.AddDocument`: when the id is already present, the model appends a second record. The vector store's own handling of duplicate ids is library behaviour and is not modelled.
- `RagAgent.RagAgent.DeleteDocument`: deleting an absent id succeeds and changes nothing. Store-side validation is not modelled.
- `RagAgent.RagAgent.ClearCollection`: a failure leaves the collection unchanged. The model does not cover a drop that succeeds followed by a re-create that fails.
- `RagAgent.RagAgent.RetrieveDocuments`: a metadata entry is always a map. The store's `None` entry for a document stored without metadata is not modelled.
- `RagAgent.RagAgent.GenerateResponse`: `doc["metadata"].get(...)` raises `AttributeError` on a `None` metadata entry (`src/rag_agent.py:156`). The reply "Error generating RAG response: 'NoneType' object has no attribute 'get'" is therefore never produced by the model.
- `Chatbot.SimpleChatbot.RunCommand`: for the same reason, `list_docs` raising out of the chat loop on a `None` metadata entry (`src/main.py:139`) is not modelled.
- `RagAgent.RagAgent.ListDocuments`: metadata entries are string-to-string maps. A `None` entry inside the metadata list, and metadata values that are not strings, are not modelled.
- `Chatbot.SimpleChatbot.constructor`: the constructors of the chat model, the embedder and the persistent store client are assumed not to raise.
- `PyText.LowerAscii`: only ASCII letters are lowered. That is exact for comparing with "quit" but is not Python's full `str.lower`.
- `PyPath`: paths follow the POSIX rules of Python 3.12's `pathlib`. Windows paths are not modelled.
- The repository's tests, `setup.py`, `chatbot.py` and `test_demo.py` are not part of this model.

## Findings

| source | as written | input that shows it | evidently intended | confidence | as-written member | corrected member |
|---|---|---|---|---|---|---|
| src/function_agent.py:27 | `set("0123456789+-*/().\\s")` allows a backslash and the letter `s`, but no whitespace | "2 + 3 * 4", the tool's own documented example, is rejected as "Error: Invalid characters in expression" | digits, operators, parentheses, the dot and whitespace are allowed | high (not executed) | FunctionAgent.SpaceRejected | FunctionAgent.IntendedCalculatorAcceptsExample |
