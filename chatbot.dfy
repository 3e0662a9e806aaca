/**
 * The orchestrator of `src/main.py`: which agents `SimpleChatbot` creates,
 * the RAG, then tool-calling, then plain-chat chain of `generate_response`,
 * the RAG management commands and how the chat loop classifies one line of
 * input. Reading input and printing are left out; the lines a command would
 * print are returned instead.
 */
module Chatbot {
  import opened PyText
  import FunctionAgent
  import RagAgent
  import PyPath

  type Message = FunctionAgent.Message

  /** What the collaborators answer during one turn: the plain chat service
      (model name, prompt), the RAG agent's embed-and-search, the tool-bound
      chat model and the tool node, and the number of agent steps the
      tool-calling graph may take. */
  datatype Services = Services(
    chat: (string, string) -> Attempt<string>,
    search: (string, int) -> Attempt<RagAgent.QueryResult>,
    model: seq<Message> -> Attempt<Message>,
    toolNode: seq<Message> -> Attempt<seq<Message>>,
    fuel: nat)

  /** What the store answers to the calls a management command makes. */
  datatype StoreServices = StoreServices(
    count: RagAgent.StoreCall,
    add: RagAgent.StoreCall,
    files: string -> RagAgent.FileState,
    get: RagAgent.StoreCall,
    clear: RagAgent.StoreCall)

  // ---------------------------------------------------------------------
  // The fallback chain
  // ---------------------------------------------------------------------

  /** The chain of `generate_response`: the first active strategy whose call
      returns wins; one that raises falls through to the next; the plain chat
      call is last, and its failure becomes "Error generating response: " +
      str(e). A strategy that is not active is `None`. */
  function FirstAnswer(rag: Option<Attempt<string>>,
                       tools: Option<Attempt<FunctionAgent.Reply>>,
                       chat: Attempt<string>): (reply: FunctionAgent.Reply)
    ensures reply.Unfinished? ==> tools == Some(Returned(FunctionAgent.Unfinished))
  {
    if rag.Some? && rag.value.Returned? then FunctionAgent.Answer(rag.value.value)
    else if tools.Some? && tools.value.Returned? then tools.value.value
    else match chat
      case Returned(text) => FunctionAgent.Answer(text)
      case Raised(e) => FunctionAgent.Answer("Error generating response: " + e)
  }

  /** The chain returns the first strategy that does not raise, and never
      raises itself: when every strategy raises, the error text comes back. */
  lemma FirstAnswerOrder(rag: Option<Attempt<string>>,
                         tools: Option<Attempt<FunctionAgent.Reply>>,
                         chat: Attempt<string>)
    ensures rag.Some? && rag.value.Returned? ==> FirstAnswer(rag, tools, chat) == FunctionAgent.Answer(rag.value.value)
    ensures (rag.None? || rag.value.Raised?) && tools.Some? && tools.value.Returned? ==>
              FirstAnswer(rag, tools, chat) == tools.value.value
    ensures (rag.None? || rag.value.Raised?) && (tools.None? || tools.value.Raised?) ==>
              FirstAnswer(rag, tools, chat)
              == FunctionAgent.Answer(if chat.Returned? then chat.value else "Error generating response: " + chat.error)
  {
  }

  /** The RAG agent catches every exception itself, so an active RAG agent
      always answers, even when its search raised: the turn then ends with
      the RAG error text and neither the tool-calling agent nor plain chat is
      consulted. */
  lemma RagErrorIsFinal(query: string, error: string,
                        tools: Option<Attempt<FunctionAgent.Reply>>, chat: Attempt<string>, reply: Attempt<string>)
    ensures var prompt := RagAgent.RagPrompt(query, true, RagAgent.Retrieval(Raised(error)));
            FirstAnswer(Some(Returned(RagAgent.RagReply(prompt, reply))), tools, chat)
            == FunctionAgent.Answer("Error generating RAG response: " + error)
  {
  }

  // ---------------------------------------------------------------------
  // Commands and the chat loop's classification of a line
  // ---------------------------------------------------------------------

  /** A RAG management command and its payload. */
  datatype Command = AddDoc(text: string) | AddFile(path: string) | ListDocs | ClearDocs

  /** Recognises a command: the prefixes "add_doc " and "add_file " (payload
      `input[8:].strip()` and `input[9:].strip()`), and exactly "list_docs"
      and "clear_docs". */
  function ParseCommand(input: string): (c: Option<Command>)
    ensures c.Some? <==> (StartsWith(input, "add_doc ") || StartsWith(input, "add_file ")
                          || input == "list_docs" || input == "clear_docs")
    ensures StartsWith(input, "add_doc ") ==> c == Some(AddDoc(Strip(input[8..])))
    ensures StartsWith(input, "add_file ") ==> c == Some(AddFile(Strip(input[9..])))
    ensures input == "list_docs" ==> c == Some(ListDocs)
    ensures input == "clear_docs" ==> c == Some(ClearDocs)
  {
    CommandFormsDisjoint(input);
    if StartsWith(input, "add_doc ") then Some(AddDoc(Strip(input[8..])))
    else if StartsWith(input, "add_file ") then Some(AddFile(Strip(input[9..])))
    else if input == "list_docs" then Some(ListDocs)
    else if input == "clear_docs" then Some(ClearDocs)
    else None
  }

  /** No line has two of the four command forms. */
  lemma CommandFormsDisjoint(input: string)
    ensures StartsWith(input, "add_doc ") ==> !StartsWith(input, "add_file ")
    ensures StartsWith(input, "add_doc ") || StartsWith(input, "add_file ") ==>
              input != "list_docs" && input != "clear_docs"
  {
    if StartsWith(input, "add_doc ") {
      assert input[0] == input[..8][0] == 'a' && input[4] == input[..8][4] == 'd';
    } else if StartsWith(input, "add_file ") {
      assert input[0] == input[..9][0] == 'a';
    }
  }

  /** What the chat loop does with one line of input. */
  datatype LineAction = Quit | RagCommand | Ask(query: string)

  /** The chat loop strips the line; "quit" in any letter case exits; a line
      the RAG command handler accepts is consumed; anything else is sent to
      `generate_response`. */
  function Classify(rawInput: string, ragActive: bool): (action: LineAction)
    ensures action.Ask? ==> action.query == Strip(rawInput)
    ensures action == RagCommand <==> ragActive && ParseCommand(Strip(rawInput)).Some?
  {
    var line := Strip(rawInput);
    if LowerAscii(line) == "quit" then
      assert |line| == 4;
      Quit
    else if ragActive && ParseCommand(line).Some? then RagCommand
    else Ask(line)
  }

  /** A line exits exactly when, stripped, it spells "quit" in any mix of
      upper- and lower-case letters. */
  lemma QuitInAnyCase(rawInput: string, ragActive: bool)
    ensures Classify(rawInput, ragActive) == Quit <==>
              var line := Strip(rawInput);
              && |line| == 4
              && line[0] in {'q', 'Q'} && line[1] in {'u', 'U'}
              && line[2] in {'i', 'I'} && line[3] in {'t', 'T'}
  {
    var line := Strip(rawInput);
    var lower := LowerAscii(line);
    if |line| == 4 {
      assert lower == "quit" <==> lower[0] == 'q' && lower[1] == 'u' && lower[2] == 'i' && lower[3] == 't';
    }
  }

  /** A command line that reached the handler through the chat loop always
      has a payload: the line is stripped, so after "add_doc " or "add_file "
      something other than whitespace remains and the usage message is never
      printed from the loop. */
  lemma {:induction false} LoopCommandsHavePayload(rawInput: string)
    ensures var command := ParseCommand(Strip(rawInput));
            && (command.Some? && command.value.AddDoc? ==> command.value.text != "")
            && (command.Some? && command.value.AddFile? ==> command.value.path != "")
  {
    var line := Strip(rawInput);
    if StartsWith(line, "add_doc ") {
      assert line[..8][7] == ' ';
      PayloadAfterBlank(line, 8);
      assert ParseCommand(line) == Some(AddDoc(Strip(line[8..])));
    } else if StartsWith(line, "add_file ") {
      assert line[..9][8] == ' ';
      PayloadAfterBlank(line, 9);
      assert ParseCommand(line) == Some(AddFile(Strip(line[9..])));
    } else {
      assert ParseCommand(line) == (if line == "list_docs" then Some(ListDocs)
                                    else if line == "clear_docs" then Some(ClearDocs) else None);
    }
  }

  /** In a line that ends with a non-blank character, whatever follows a
      blank is not blank. */
  lemma PayloadAfterBlank(line: string, n: nat)
    requires 0 < n <= |line| && IsSpace(line[n - 1])
    requires !IsSpace(line[|line| - 1])
    ensures Strip(line[n..]) != ""
  {
    var rest := line[n..];
    assert rest[|rest| - 1] == line[|line| - 1];
  }

  /** Because the line is stripped first, a bare "add_doc" (with or without
      surrounding blanks) never matches the "add_doc " prefix and goes to the
      model as a question. */
  lemma BareAddDocIsAsked(rawInput: string)
    requires Strip(rawInput) == "add_doc"
    ensures Classify(rawInput, true) == Ask("add_doc")
  {
    assert LowerAscii("add_doc")[0] == 'a';
  }

  // ---------------------------------------------------------------------
  // The start-up status line
  // ---------------------------------------------------------------------

  /** The enabled features, RAG first. */
  function Features(useRagAgent: bool, useFunctionAgent: bool): seq<string> {
    (if useRagAgent then ["RAG"] else []) + (if useFunctionAgent then ["function calling"] else [])
  }

  /** "with " + " and ".join(features), or "in basic mode" without features. */
  function AgentStatus(useRagAgent: bool, useFunctionAgent: bool): (status: string)
    ensures (useRagAgent || useFunctionAgent) <==> StartsWith(status, "with ")
    ensures !useRagAgent && !useFunctionAgent ==> status == "in basic mode"
  {
    var features := Features(useRagAgent, useFunctionAgent);
    assert "in basic mode"[0] != 'w';
    if features != [] then "with " + Join(features, " and ") else "in basic mode"
  }

  /** The four status strings. */
  lemma AgentStatusCases()
    ensures AgentStatus(true, true) == "with RAG and function calling"
    ensures AgentStatus(true, false) == "with RAG"
    ensures AgentStatus(false, true) == "with function calling"
    ensures AgentStatus(false, false) == "in basic mode"
  {
    StatusWithBoth();
    StatusWithOne();
  }

  /** Both features: they are joined with " and ", RAG first. */
  lemma StatusWithBoth()
    ensures AgentStatus(true, true) == "with RAG and function calling"
  {
    var features := ["RAG", "function calling"];
    assert Features(true, true) == features;
    assert features[..1] == ["RAG"];
  }

  /** One feature: its name alone follows "with ". */
  lemma StatusWithOne()
    ensures AgentStatus(true, false) == "with RAG"
    ensures AgentStatus(false, true) == "with function calling"
  {
    assert Features(true, false) == ["RAG"];
    assert Features(false, true) == ["function calling"];
  }

  /** The first line `list_docs` prints for a document: its number, id and
      source. */
  function IdLine(d: RagAgent.Summary, number: nat): string {
    "  " + NatToString(number) + ". ID: " + d.id + ", Source: " + RagAgent.SourceOf(d.metadata)
  }

  /** The second line: the first 100 characters of the preview, then "...". */
  function PreviewLine(d: RagAgent.Summary): string
  {
    var preview := if |d.content| > 100 then d.content[..100] else d.content;
    "     Preview: " + preview + "..."
  }

  /** The lines `list_docs` prints for the listed documents, numbered from
      `first`: two lines per document, in listing order. */
  function DocumentLines(docs: seq<RagAgent.Summary>, first: nat): (lines: seq<string>)
    ensures |lines| == 2 * |docs|
  {
    seq(2 * |docs|, k requires 0 <= k < 2 * |docs| =>
      if k % 2 == 0 then IdLine(docs[k / 2], first + k / 2) else PreviewLine(docs[k / 2]))
  }

  /** Document `i` of the listing is numbered `first + i` and printed with
      its id and source, then its preview line. */
  lemma DocumentLinesAt(docs: seq<RagAgent.Summary>, first: nat, i: nat)
    requires i < |docs|
    ensures DocumentLines(docs, first)[2 * i] == IdLine(docs[i], first + i)
    ensures DocumentLines(docs, first)[2 * i + 1] == PreviewLine(docs[i])
  {
    assert (2 * i) / 2 == i && (2 * i + 1) / 2 == i;
  }

  /** What `list_docs` prints. */
  function ListingLines(docs: seq<RagAgent.Summary>): (lines: seq<string>)
    ensures docs == [] ==> lines == ["No documents in collection"]
    ensures docs != [] ==> |lines| == 1 + 2 * |docs|
  {
    if docs == [] then ["No documents in collection"]
    else ["\n\U{1F4DA} Documents in collection (" + NatToString(|docs|) + " total):"] + DocumentLines(docs, 1)
  }

  /** What a management command does to the stored documents (`before` to
      `after`) and what it prints. An empty payload prints the usage line and
      makes no store call; an add prints the new id or the error; list_docs
      prints the listing (empty when the store's get raises); clear_docs
      empties the collection unless the store raises. */
  ghost predicate CommandEffect(command: Command, store: StoreServices,
                                before: seq<RagAgent.Record>, after: seq<RagAgent.Record>, output: seq<string>)
  {
    match command
    case AddDoc(text) =>
      if text == "" then after == before && output == ["Usage: add_doc <document text>"]
      else if IsBlank(text) then
        after == before && output == ["\U{2717} Error adding document: " + RagAgent.EmptyContentError]
      else if store.count.Throws? then
        after == before && output == ["\U{2717} Error adding document: " + store.count.error]
      else if store.add.Throws? then
        after == before && output == ["\U{2717} Error adding document: " + store.add.error]
      else
        var id := RagAgent.DefaultDocId(|before|);
        after == before + [RagAgent.Record(id, text, map[])] && output == ["\U{2713} Document added with ID: " + id]
    case AddFile(path) =>
      var file := store.files(PyPath.PathText(path));
      if path == "" then after == before && output == ["Usage: add_file <file path>"]
      else if file.Missing? then
        after == before && output == ["\U{2717} Error adding file: " + ("File not found: " + PyPath.PathText(path))]
      else if file.Unreadable? then
        after == before && output == ["\U{2717} Error adding file: " + file.error]
      else if store.count.Throws? then
        after == before && output == ["\U{2717} Error adding file: " + store.count.error]
      else if IsBlank(file.content) then
        after == before && output == ["\U{2717} Error adding file: " + RagAgent.EmptyContentError]
      else if store.add.Throws? then
        after == before && output == ["\U{2717} Error adding file: " + store.add.error]
      else
        var id := RagAgent.FileDocId(PyPath.Stem(PyPath.Name(path)), |before|);
        && after == before + [RagAgent.Record(id, file.content, RagAgent.FileMetadata(map[], path))]
        && output == ["\U{2713} File added with ID: " + id]
    case ListDocs =>
      after == before
      && output == ListingLines(if store.get.Completes? then RagAgent.Listing(RagAgent.StoreGet(before)) else [])
    case ClearDocs =>
      && after == (if store.clear.Completes? then [] else before)
      && output == [if store.clear.Completes? then "\U{2713} Document collection cleared" else "\U{2717} Error clearing collection"]
  }

  /** `list_docs` on a collection prints a header with the number of
      documents and then, for the `i`-th stored document (counting from 1),
      its id and source, in store order. */
  lemma ListDocsShowsEveryDocument(records: seq<RagAgent.Record>, i: nat)
    requires i < |records|
    ensures var lines := ListingLines(RagAgent.Listing(RagAgent.StoreGet(records)));
            && |lines| == 1 + 2 * |records|
            && lines[0] == "\n\U{1F4DA} Documents in collection (" + NatToString(|records|) + " total):"
            && lines[1 + 2 * i] == "  " + NatToString(i + 1) + ". ID: " + records[i].id + ", Source: " + RagAgent.SourceOf(records[i].metadata)
  {
    var docs := RagAgent.Listing(RagAgent.StoreGet(records));
    RagAgent.ListingOfCollection(records);
    DocumentLinesAt(docs, 1, i);
    assert ListingLines(docs)[1 + 2 * i] == DocumentLines(docs, 1)[2 * i];
  }

  // ---------------------------------------------------------------------
  // The chatbot
  // ---------------------------------------------------------------------

  class SimpleChatbot {
    const modelName: string
    const useFunctionAgent: bool
    const useRagAgent: bool
    const functionAgent: FunctionAgent.FunctionCallerAgent?
    const ragAgent: RagAgent.RagAgent?

    /** An agent is created exactly when it is asked for and its module could
        be imported; the RAG agent opens the default collection, which may
        already hold `stored`. */
    constructor (modelName: string, useFunctionAgent: bool, useRagAgent: bool,
                 functionAgentImported: bool, ragAgentImported: bool, stored: seq<RagAgent.Record>)
      ensures this.modelName == modelName
      ensures this.useFunctionAgent == useFunctionAgent && this.useRagAgent == useRagAgent
      ensures functionAgent != null <==> useFunctionAgent && functionAgentImported
      ensures ragAgent != null <==> useRagAgent && ragAgentImported
      ensures functionAgent != null ==> fresh(functionAgent) && functionAgent.modelName == modelName
      ensures ragAgent != null ==>
                && fresh(ragAgent) && ragAgent.modelName == modelName
                && ragAgent.collectionName == RagAgent.DefaultCollectionName
                && ragAgent.topK == RagAgent.DefaultTopK
                && ragAgent.records == stored
      ensures Valid()
    {
      this.modelName := modelName;
      this.useFunctionAgent := useFunctionAgent;
      this.useRagAgent := useRagAgent;
      if useFunctionAgent && functionAgentImported {
        this.functionAgent := new FunctionAgent.FunctionCallerAgent(modelName);
      } else {
        this.functionAgent := null;
      }
      if useRagAgent && ragAgentImported {
        this.ragAgent := new RagAgent.RagAgent(modelName, RagAgent.DefaultCollectionName, RagAgent.DefaultTopK, stored);
      } else {
        this.ragAgent := null;
      }
    }

    /** The agents share the chatbot's model; the RAG agent keeps the
        default top-k. */
    predicate Valid() {
      && (functionAgent != null ==> functionAgent.modelName == modelName)
      && (ragAgent != null ==> ragAgent.modelName == modelName && ragAgent.topK == RagAgent.DefaultTopK)
    }

    /** `self.use_rag_agent and self.rag_agent`. */
    predicate RagActive() {
      useRagAgent && ragAgent != null
    }

    /** `self.use_function_agent and self.function_agent`. */
    predicate FunctionAgentActive() {
      useFunctionAgent && functionAgent != null
    }

    /** `generate_response`: RAG if active, else the tool-calling agent if
        active, else plain chat; it never raises. Both agents catch their
        own exceptions, so the first active agent's answer is the reply. */
    method GenerateResponse(query: string, services: Services) returns (reply: FunctionAgent.Reply)
      requires Valid()
      ensures var ragPrompt := RagAgent.RagPrompt(query, true, RagAgent.Retrieval(services.search(query, RagAgent.DefaultTopK)));
              var rag := if RagActive()
                         then Some(Returned(RagAgent.RagReply(ragPrompt, if ragPrompt.Returned? then services.chat(modelName, ragPrompt.value) else Raised(""))))
                         else None;
              var tools := if FunctionAgentActive()
                           then Some(Returned(FunctionAgent.InvokeResult(query, services.fuel, services.model, services.toolNode)))
                           else None;
              reply == FirstAnswer(rag, tools, services.chat(modelName, query))
      ensures RagActive() ==> reply.Answer?
      ensures RagActive() && services.search(query, RagAgent.DefaultTopK).Raised? ==>
                reply == FunctionAgent.Answer("Error generating RAG response: " + services.search(query, RagAgent.DefaultTopK).error)
    {
      if RagActive() {
        var text, _ := ragAgent.GenerateResponse(query, true, services.search, services.chat);
        return FunctionAgent.Answer(text);
      }
      if FunctionAgentActive() {
        reply := functionAgent.Invoke(query, services.fuel, services.model, services.toolNode);
        return;
      }
      match services.chat(modelName, query) {
        case Returned(text) => reply := FunctionAgent.Answer(text);
        case Raised(e) => reply := FunctionAgent.Answer("Error generating response: " + e);
      }
    }

    /** `_handle_rag_commands`: False, with nothing printed or changed, when
        RAG is inactive or the line is not a command; otherwise True, with
        the effect and the printed lines `CommandEffect` describes. */
    method HandleRagCommands(input: string, store: StoreServices) returns (handled: bool, output: seq<string>)
      modifies ragAgent
      ensures handled <==> RagActive() && ParseCommand(input).Some?
      ensures !handled ==> output == [] && (ragAgent != null ==> ragAgent.records == old(ragAgent.records))
      ensures handled ==> CommandEffect(ParseCommand(input).value, store, old(ragAgent.records), ragAgent.records, output)
    {
      if !RagActive() {
        return false, [];
      }
      var command := ParseCommand(input);
      if command.None? {
        return false, [];
      }
      handled := true;
      output := RunCommand(command.value, store);
    }

    /** One branch of `_handle_rag_commands`. */
    method RunCommand(command: Command, store: StoreServices) returns (output: seq<string>)
      requires ragAgent != null
      modifies ragAgent
      ensures CommandEffect(command, store, old(ragAgent.records), ragAgent.records, output)
    {
      match command {
        case AddDoc(text) =>
          if text != "" {
            var r := ragAgent.AddDocument(text, None, None, store.count, store.add);
            output := match r
              case Ok(id) => ["\U{2713} Document added with ID: " + id]
              case Err(e) => ["\U{2717} Error adding document: " + e.message];
          } else {
            output := ["Usage: add_doc <document text>"];
          }
        case AddFile(path) =>
          if path != "" {
            var r := ragAgent.AddDocumentFromFile(path, None, store.files, store.count, store.add);
            output := match r
              case Ok(id) => ["\U{2713} File added with ID: " + id]
              case Err(e) => ["\U{2717} Error adding file: " + e.message];
          } else {
            output := ["Usage: add_file <file path>"];
          }
        case ListDocs =>
          var docs := ragAgent.ListDocuments(store.get);
          output := ListingLines(docs);
        case ClearDocs =>
          var ok := ragAgent.ClearCollection(store.clear);
          output := [if ok then "\U{2713} Document collection cleared" else "\U{2717} Error clearing collection"];
      }
    }

    /** The status line of the chat loop depends on the flags alone, not on
        whether the agents could be created. */
    function Status(): (status: string)
      ensures (useRagAgent || useFunctionAgent) <==> StartsWith(status, "with ")
    {
      AgentStatus(useRagAgent, useFunctionAgent)
    }
  }
}
