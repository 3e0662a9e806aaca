/**
 * The retrieval-augmented agent of `src/rag_agent.py` and the document store
 * adapter around its vector collection.
 *
 * The collection is the field `records`: the documents in store order, each
 * an id, a text and a metadata map (the embedding is derived and left out).
 * Calls into the embedder, the vector store, the file system and the chat
 * service are parameters: a `StoreCall` says whether a store call completes
 * or raises, `search` answers a nearest-neighbour query, `files` says what
 * reading a path gives, `chat` answers a prompt.
 */
module RagAgent {
  import opened PyText
  import opened PyPath

  type Metadata = map<string, string>

  /** One document of the collection. */
  datatype Record = Record(id: string, content: string, metadata: Metadata)

  /** Whether a call into the vector store completes or raises. */
  datatype StoreCall = Completes | Throws(error: string)

  /** What opening and reading a path gives. */
  datatype FileState = Missing | Unreadable(error: string) | Text(content: string)

  /** The exceptions the write operations let escape to their caller. */
  datatype PyError = ValueError(message: string) | FileNotFoundError(message: string) | Exception(message: string)

  datatype Result<+T> = Ok(value: T) | Err(error: PyError)

  const DefaultCollectionName: string := "documents"
  const DefaultTopK: int := 3
  const EmptyContentError: string := "Document content cannot be empty"

  // ---------------------------------------------------------------------
  // Ids and metadata of new documents
  // ---------------------------------------------------------------------

  /** The id given to a document added without one: "doc_" + str(count()). */
  function DefaultDocId(count: nat): (id: string)
    ensures StartsWith(id, "doc_")
  {
    "doc_" + NatToString(count)
  }

  /** The default id depends on the current count alone, and different counts
      give different ids. */
  lemma DefaultDocIdInjective(m: nat, n: nat)
    ensures DefaultDocId(m) == DefaultDocId(n) <==> m == n
  {
    if DefaultDocId(m) == DefaultDocId(n) {
      assert DefaultDocId(m)[4..] == NatToString(m);
      assert DefaultDocId(n)[4..] == NatToString(n);
      NatToStringInjective(m, n);
    }
  }

  /** The id given to a document read from a file: "file_" + stem + "_" + str(count()). */
  function FileDocId(stem: string, count: nat): (id: string)
    ensures |id| == 6 + |stem| + |NatToString(count)|
    ensures StartsWith(id, "file_")
    ensures id[5..5 + |stem|] == stem && id[5 + |stem|] == '_'
    ensures id[6 + |stem|..] == NatToString(count)
  {
    "file_" + stem + "_" + NatToString(count)
  }

  /** The caller's metadata updated with the file's source, name and suffix;
      those three keys overwrite whatever the caller gave for them. */
  function FileMetadata(metadata: Metadata, filePath: string): (m: Metadata)
    ensures m.Keys == metadata.Keys + {"source", "filename", "file_type"}
    ensures m["source"] == PathText(filePath)
    ensures m["filename"] == Name(filePath)
    ensures m["file_type"] == Suffix(Name(filePath))
    ensures forall k :: k in metadata && k != "source" && k != "filename" && k != "file_type" ==> m[k] == metadata[k]
  {
    metadata["source" := PathText(filePath)]["filename" := Name(filePath)]["file_type" := Suffix(Name(filePath))]
  }

  /** The collection without the documents whose id is `id`. */
  function Without(records: seq<Record>, id: string): (r: seq<Record>)
    ensures |r| <= |records|
    ensures forall i :: 0 <= i < |r| ==> r[i].id != id && r[i] in records
    ensures forall x :: x in records && x.id != id ==> x in r
    ensures (forall x :: x in records ==> x.id != id) ==> r == records
    decreases |records|
  {
    if records == [] then []
    else
      var rest := Without(records[1..], id);
      if records[0].id == id then rest else [records[0]] + rest
  }

  /** Removing an id from two stretches of the collection one after the other
      is removing it from the whole: the kept records stay in order, each as
      often as before. */
  lemma {:induction false} WithoutAppend(a: seq<Record>, b: seq<Record>, id: string)
    ensures Without(a + b, id) == Without(a, id) + Without(b, id)
    decreases |a|
  {
    if a == [] {
      assert a + b == b;
    } else {
      assert (a + b)[0] == a[0] && (a + b)[1..] == a[1..] + b;
      WithoutAppend(a[1..], b, id);
    }
  }

  /** The default id is not unique: it depends only on the count, so after a
      delete lowers the count the next default id can be one still in use. */
  lemma DefaultIdCanCollide()
    ensures var before := [Record("doc_0", "first", map[]), Record("doc_1", "second", map[])];
            var after := Without(before, "doc_0");
            after == [Record("doc_1", "second", map[])] && DefaultDocId(|after|) == after[0].id
  {
    var before := [Record("doc_0", "first", map[]), Record("doc_1", "second", map[])];
    assert Without(before[1..], "doc_0") == [before[1]];
    assert NatToString(1) == "1";
  }

  // ---------------------------------------------------------------------
  // Retrieval: the store's parallel result lists become records
  // ---------------------------------------------------------------------

  /** The parts of the store's query answer that `retrieve_documents` reads;
      each is a list of rows (one row per query embedding), or `None`. */
  datatype QueryResult = QueryResult(
    ids: Option<seq<seq<string>>>,
    documents: Option<seq<seq<string>>>,
    metadatas: Option<seq<seq<Metadata>>>,
    distances: Option<seq<seq<real>>>)

  /** A retrieved document. */
  datatype Hit = Hit(content: string, metadata: Metadata, distance: real, id: string)

  const NotSubscriptable: string := "'NoneType' object is not subscriptable"
  const IndexOutOfRange: string := "list index out of range"

  /** `results[key][0][i] if results[key][0] else default`, with the
      exceptions Python raises when the column is None or too short. */
  function Cell<T>(column: Option<seq<seq<T>>>, i: nat, default: T): (r: Attempt<T>)
    ensures column.Some? && |column.value| > 0 && column.value[0] == [] ==> r == Returned(default)
    ensures column.Some? && |column.value| > 0 && i < |column.value[0]| ==> r == Returned(column.value[0][i])
    ensures r.Returned? ==> column.Some? && |column.value| > 0
  {
    match column
    case None => Raised(NotSubscriptable)
    case Some(rows) =>
      if |rows| == 0 then Raised(IndexOutOfRange)
      else if |rows[0]| == 0 then Returned(default)
      else if i < |rows[0]| then Returned(rows[0][i])
      else Raised(IndexOutOfRange)
  }

  /** The first row of documents, or [] when the documents are missing or
      empty (`if results["documents"] and results["documents"][0]`). */
  function FirstRow(q: QueryResult): seq<string> {
    if q.documents.Some? && |q.documents.value| > 0 then q.documents.value[0] else []
  }

  /** The record built for hit `i`, its fields read in the order the source
      builds the dictionary. */
  function HitAt(q: QueryResult, i: nat): Attempt<Hit>
    requires i < |FirstRow(q)|
  {
    match Cell(q.metadatas, i, map[])
    case Raised(e) => Raised(e)
    case Returned(metadata) =>
      match Cell(q.distances, i, 0.0)
      case Raised(e) => Raised(e)
      case Returned(distance) =>
        match Cell(q.ids, i, DefaultDocId(i))
        case Raised(e) => Raised(e)
        case Returned(id) => Returned(Hit(FirstRow(q)[i], metadata, distance, id))
  }

  /** The records for the first `n` hits, or the first exception raised. */
  function Hits(q: QueryResult, n: nat): (r: Attempt<seq<Hit>>)
    requires n <= |FirstRow(q)|
    ensures r.Returned? ==> |r.value| == n
    ensures r.Returned? ==> forall i :: 0 <= i < n ==> HitAt(q, i) == Returned(r.value[i])
    ensures (forall i :: 0 <= i < n ==> HitAt(q, i).Returned?) ==> r.Returned?
  {
    if n == 0 then Returned([])
    else match Hits(q, n - 1)
      case Raised(e) => Raised(e)
      case Returned(hits) =>
        match HitAt(q, n - 1)
        case Raised(e) => Raised(e)
        case Returned(h) => Returned(hits + [h])
  }

  /** Once a hit raises, the whole mapping raises that exception. */
  lemma {:induction false} HitsFirstError(q: QueryResult, i: nat, n: nat)
    requires i < n <= |FirstRow(q)|
    requires Hits(q, i).Returned? && HitAt(q, i).Raised?
    ensures Hits(q, n) == Raised(HitAt(q, i).error)
  {
    if n > i + 1 {
      HitsFirstError(q, i, n - 1);
    }
  }

  /** What `retrieve_documents` returns or raises, given what the embedder
      and the store's query gave. */
  function Retrieval(answer: Attempt<QueryResult>): (r: Attempt<seq<Hit>>)
    ensures answer.Raised? ==> r == Raised(answer.error)
    ensures r.Returned? ==> answer.Returned? && |r.value| == |FirstRow(answer.value)|
  {
    match answer
    case Raised(e) => Raised(e)
    case Returned(q) => Hits(q, |FirstRow(q)|)
  }

  /** One record per hit of the first row, in store order, carrying that
      hit's document; none when the row is empty or missing. */
  lemma RetrievalInStoreOrder(q: QueryResult)
    ensures FirstRow(q) == [] ==> Retrieval(Returned(q)) == Returned([])
    ensures Retrieval(Returned(q)).Returned? ==>
              var hits := Retrieval(Returned(q)).value;
              |hits| == |FirstRow(q)| && forall i :: 0 <= i < |hits| ==> hits[i].content == FirstRow(q)[i]
  {
    var hits := Retrieval(Returned(q));
    if hits.Returned? {
      forall i | 0 <= i < |FirstRow(q)| ensures hits.value[i].content == FirstRow(q)[i] {
        assert HitAt(q, i) == Returned(hits.value[i]);
      }
    }
  }

  /** Missing fields get defaults: an empty first row of metadata gives {},
      of distances 0.0, of ids "doc_" + i. */
  lemma RetrievalDefaults(q: QueryResult, i: nat)
    requires Retrieval(Returned(q)).Returned? && i < |FirstRow(q)|
    ensures var h := Retrieval(Returned(q)).value[i];
            && (q.metadatas.value[0] == [] ==> h.metadata == map[])
            && (q.distances.value[0] == [] ==> h.distance == 0.0)
            && (q.ids.value[0] == [] ==> h.id == DefaultDocId(i))
  {
    assert HitAt(q, i) == Returned(Retrieval(Returned(q)).value[i]);
  }

  /** An answer whose columns all have a first row as long as the documents'
      row is mapped without raising, field for field. */
  lemma RetrievalOfParallelRows(q: QueryResult)
    requires q.documents.Some? && |q.documents.value| > 0
    requires q.ids.Some? && |q.ids.value| > 0 && |q.ids.value[0]| == |q.documents.value[0]|
    requires q.metadatas.Some? && |q.metadatas.value| > 0 && |q.metadatas.value[0]| == |q.documents.value[0]|
    requires q.distances.Some? && |q.distances.value| > 0 && |q.distances.value[0]| == |q.documents.value[0]|
    ensures Retrieval(Returned(q)).Returned?
    ensures forall i :: 0 <= i < |q.documents.value[0]| ==>
              Retrieval(Returned(q)).value[i]
              == Hit(q.documents.value[0][i], q.metadatas.value[0][i], q.distances.value[0][i], q.ids.value[0][i])
  {
    var n := |FirstRow(q)|;
    forall i | 0 <= i < n ensures HitAt(q, i).Returned? {
    }
  }

  // ---------------------------------------------------------------------
  // Prompt assembly
  // ---------------------------------------------------------------------

  /** `doc["metadata"].get("source", "unknown")`. */
  function SourceOf(metadata: Metadata): string {
    if "source" in metadata then metadata["source"] else "unknown"
  }

  /** The context part of one retrieved document. */
  function ContextPart(hit: Hit): (part: string)
    ensures StartsWith(part, "Source: ")
  {
    "Source: " + SourceOf(hit.metadata) + "\nContent: " + hit.content
  }

  /** The context block: the parts of all hits, in retrieval order, joined by
      a blank line. */
  function ContextText(hits: seq<Hit>): string {
    Join(seq(|hits|, i requires 0 <= i < |hits| => ContextPart(hits[i])), "\n\n")
  }

  /** The text before the context in the augmented prompt. */
  const PromptHead: string :=
    "Based on the following context information, please answer the question.\"\n"
    + "                \"If the context doesn't contain relevant information, you can use your general knowledge\"\n"
    + "                \"but mention that the information is not from the provided context.\n"
    + "\n"
    + "Context:\n"

  /** The prompt sent to the chat service: the augmented prompt when the
      context is non-empty, the query verbatim otherwise. */
  function Prompt(query: string, context: string): string {
    if context != "" then PromptHead + context + PromptTail(query)
    else query
  }

  /** The text after the context in the augmented prompt. */
  function PromptTail(query: string): (tail: string)
    ensures |tail| == |query| + 21
  {
    "\n\nQuestion: " + query + "\n\nAnswer:"
  }

  /** The prompt `generate_response` sends, or the exception retrieval raised
      (`top_k` is the agent's own). */
  function RagPrompt(query: string, includeContext: bool, retrieval: Attempt<seq<Hit>>): (prompt: Attempt<string>)
    ensures !includeContext ==> prompt == Returned(query)
    ensures includeContext ==> (prompt.Raised? <==> retrieval.Raised?)
    ensures includeContext && retrieval.Raised? ==> prompt.error == retrieval.error
    ensures includeContext && retrieval == Returned([]) ==> prompt == Returned(query)
  {
    if !includeContext then Returned(query)
    else match retrieval
      case Raised(e) => Raised(e)
      case Returned(hits) => Returned(Prompt(query, ContextText(hits)))
  }

  /** What `generate_response` returns: the chat service's reply to the
      prompt, or "Error generating RAG response: " + str(e) for an exception
      from retrieval or from the chat service. */
  function RagReply(prompt: Attempt<string>, reply: Attempt<string>): (text: string)
    ensures prompt.Returned? && reply.Returned? ==> text == reply.value
    ensures prompt.Raised? || reply.Raised? ==>
              var e := if prompt.Raised? then prompt.error else reply.error;
              StartsWith(text, "Error generating RAG response: ") && text[31..] == e
  {
    match prompt
    case Raised(e) => "Error generating RAG response: " + e
    case Returned(_) =>
      match reply
      case Returned(text) => text
      case Raised(e) => "Error generating RAG response: " + e
  }

  /** `s` occurs in `t` at offset `k`. */
  ghost predicate OccursAt(s: string, t: string, k: int) {
    0 <= k <= |t| - |s| && t[k..k + |s|] == s
  }

  /** `s` occurs in `t` as a contiguous piece. */
  ghost predicate Occurs(s: string, t: string) {
    exists k :: OccursAt(s, t, k)
  }

  lemma {:induction false} JoinContainsParts(parts: seq<string>, sep: string, i: nat)
    requires i < |parts|
    ensures Occurs(parts[i], Join(parts, sep))
    decreases |parts|
  {
    var n := |parts|;
    var whole := Join(parts, sep);
    if n == 1 {
      assert OccursAt(parts[i], whole, 0);
    } else if i == n - 1 {
      var k := |Join(parts[..n - 1], sep) + sep|;
      assert OccursAt(parts[i], whole, k);
    } else {
      var init := parts[..n - 1];
      JoinContainsParts(init, sep, i);
      var k :| OccursAt(parts[i], Join(init, sep), k);
      assert whole[k..k + |parts[i]|] == Join(init, sep)[k..k + |parts[i]|];
      assert OccursAt(parts[i], whole, k);
    }
  }

  /** The middle piece of a concatenation occurs in it. */
  lemma OccursInMiddle(a: string, b: string, c: string)
    ensures Occurs(b, a + b + c)
  {
    assert (a + b + c)[|a|..|a| + |b|] == b;
    assert OccursAt(b, a + b + c, |a|);
  }

  /** A concatenation starts with its first piece and ends with its last. */
  lemma EndsOfConcat(a: string, b: string, c: string)
    ensures StartsWith(a + b + c, a)
    ensures (a + b + c)[|a + b + c| - |c|..] == c
  {
    assert (a + b + c)[..|a|] == a;
  }

  /** A piece of a piece of `u` is a piece of `u`. */
  lemma OccursTransitive(s: string, t: string, u: string)
    requires Occurs(s, t) && Occurs(t, u)
    ensures Occurs(s, u)
  {
    var k :| OccursAt(s, t, k);
    var m :| OccursAt(t, u, m);
    forall j | 0 <= j < |s| ensures u[m + k + j] == s[j] {
      assert s[j] == t[k..k + |s|][j] == t[k + j];
      assert t[k + j] == u[m..m + |t|][k + j] == u[m + k + j];
    }
    assert u[m + k..m + k + |s|] == s;
    assert OccursAt(s, u, m + k);
  }

  /** Every retrieved document's content occurs in the context block. */
  lemma ContentInContext(hits: seq<Hit>, i: nat)
    requires i < |hits|
    ensures Occurs(hits[i].content, ContextText(hits))
  {
    var parts := seq(|hits|, j requires 0 <= j < |hits| => ContextPart(hits[j]));
    JoinContainsParts(parts, "\n\n", i);
    var head := "Source: " + SourceOf(hits[i].metadata) + "\nContent: ";
    assert parts[i] == head + hits[i].content + "";
    OccursInMiddle(head, hits[i].content, "");
    OccursTransitive(hits[i].content, parts[i], ContextText(hits));
  }

  /** What occurs in a non-empty context occurs in the augmented prompt. */
  lemma ContextInPrompt(query: string, context: string, s: string)
    requires context != "" && Occurs(s, context)
    ensures Occurs(s, Prompt(query, context))
  {
    OccursInMiddle(PromptHead, context, PromptTail(query));
    OccursTransitive(s, context, Prompt(query, context));
  }

  /** The augmented prompt starts with the instructions and ends with the
      question. */
  lemma PromptEnds(query: string, context: string)
    requires context != ""
    ensures var p := Prompt(query, context);
            && StartsWith(p, PromptHead)
            && |p| >= |query| + 21
            && p[|p| - |query| - 21..] == "\n\nQuestion: " + query + "\n\nAnswer:"
  {
    EndsOfConcat(PromptHead, context, PromptTail(query));
  }

  /** Without context, or when nothing is retrieved, the prompt is the query
      verbatim; otherwise it starts with the instructions, holds every
      retrieved document's content and ends with the question. */
  lemma PromptShape(query: string, includeContext: bool, retrieval: Attempt<seq<Hit>>)
    ensures !includeContext ==> RagPrompt(query, includeContext, retrieval) == Returned(query)
    ensures includeContext && retrieval == Returned([]) ==> RagPrompt(query, includeContext, retrieval) == Returned(query)
    ensures includeContext && retrieval.Returned? && retrieval.value != [] ==>
              var p := RagPrompt(query, includeContext, retrieval).value;
              && StartsWith(p, PromptHead)
              && (forall i :: 0 <= i < |retrieval.value| ==> Occurs(retrieval.value[i].content, p))
              && |p| >= |query| + 21
              && p[|p| - |query| - 21..] == "\n\nQuestion: " + query + "\n\nAnswer:"
  {
    if includeContext && retrieval.Returned? && retrieval.value != [] {
      var hits := retrieval.value;
      var parts := seq(|hits|, i requires 0 <= i < |hits| => ContextPart(hits[i]));
      JoinEmptyIff(parts, "\n\n");
      var context := ContextText(hits);
      assert context != "";
      var p := Prompt(query, context);
      PromptEnds(query, context);
      forall i | 0 <= i < |hits| ensures Occurs(hits[i].content, p) {
        ContentInContext(hits, i);
        ContextInPrompt(query, context, hits[i].content);
      }
    }
  }

  // ---------------------------------------------------------------------
  // Listing
  // ---------------------------------------------------------------------

  /** What `list_documents` reports for one document. */
  datatype Summary = Summary(id: string, content: string, metadata: Metadata)

  const PreviewLength: nat := 200

  /** `doc[:200] + "..." if len(doc) > 200 else doc`. */
  function Preview(content: string): (preview: string)
    ensures |preview| <= PreviewLength + 3
    ensures |content| <= PreviewLength ==> preview == content
    ensures |content| > PreviewLength ==> |preview| == PreviewLength + 3
    ensures |content| > PreviewLength ==> preview[..PreviewLength] == content[..PreviewLength] && preview[PreviewLength..] == "..."
  {
    if |content| > PreviewLength then content[..PreviewLength] + "..." else content
  }

  /** The parts of the store's `get` answer that `list_documents` reads. */
  datatype GetResult = GetResult(ids: seq<string>, documents: Option<seq<string>>, metadatas: Option<seq<Metadata>>)

  /** What the store's `get` answers for the collection. */
  function StoreGet(records: seq<Record>): (g: GetResult)
    ensures |g.ids| == |records| && g.documents.Some? && |g.documents.value| == |records|
    ensures g.metadatas.Some? && |g.metadatas.value| == |records|
  {
    GetResult(seq(|records|, i requires 0 <= i < |records| => records[i].id),
              Some(seq(|records|, i requires 0 <= i < |records| => records[i].content)),
              Some(seq(|records|, i requires 0 <= i < |records| => records[i].metadata)))
  }

  /** The summary of document `i`, or `None` where Python raises an
      IndexError (a non-empty ids or metadata list shorter than documents). */
  function SummaryAt(g: GetResult, i: nat): Option<Summary>
    requires g.documents.Some? && i < |g.documents.value|
  {
    var id := if g.ids == [] then Some(DefaultDocId(i)) else if i < |g.ids| then Some(g.ids[i]) else None;
    var metadata :=
      if g.metadatas.None? || g.metadatas.value == [] then Some(map[])
      else if i < |g.metadatas.value| then Some(g.metadatas.value[i]) else None;
    if id.None? || metadata.None? then None
    else Some(Summary(id.value, Preview(g.documents.value[i]), metadata.value))
  }

  /** The summaries of the first `n` documents, or `None` once one raises. */
  function Summaries(g: GetResult, n: nat): (r: Option<seq<Summary>>)
    requires g.documents.Some? && n <= |g.documents.value|
    ensures r.Some? ==> |r.value| == n && forall i :: 0 <= i < n ==> SummaryAt(g, i) == Some(r.value[i])
    ensures (forall i :: 0 <= i < n ==> SummaryAt(g, i).Some?) ==> r.Some?
  {
    if n == 0 then Some([])
    else match Summaries(g, n - 1)
      case None => None
      case Some(done) =>
        match SummaryAt(g, n - 1)
        case None => None
        case Some(s) => Some(done + [s])
  }

  /** Once a summary raises, no summaries are produced. */
  lemma {:induction false} SummariesFirstError(g: GetResult, i: nat, n: nat)
    requires g.documents.Some? && i < n <= |g.documents.value|
    requires SummaryAt(g, i).None?
    ensures Summaries(g, n).None?
  {
    if n > i + 1 {
      SummariesFirstError(g, i, n - 1);
    }
  }

  /** What `list_documents` returns for a `get` answer: the summaries, or []
      when there are no documents or an exception was raised on the way. */
  function Listing(g: GetResult): (docs: seq<Summary>)
    ensures docs != [] ==>
              && g.documents.Some? && |docs| == |g.documents.value|
              && forall i :: 0 <= i < |docs| ==> SummaryAt(g, i) == Some(docs[i])
  {
    if g.documents.None? || g.documents.value == [] then []
    else match Summaries(g, |g.documents.value|)
      case None => []
      case Some(summaries) => summaries
  }

  /** Listing the collection gives one summary per document, in store order,
      with its id, its metadata and a preview that starts like its content. */
  lemma ListingOfCollection(records: seq<Record>)
    ensures |Listing(StoreGet(records))| == |records|
    ensures forall i :: 0 <= i < |records| ==>
              Listing(StoreGet(records))[i] == Summary(records[i].id, Preview(records[i].content), records[i].metadata)
  {
    var g := StoreGet(records);
    if records != [] {
      forall i | 0 <= i < |records|
        ensures SummaryAt(g, i) == Some(Summary(records[i].id, Preview(records[i].content), records[i].metadata))
      {
      }
    }
  }

  /** A document just added shows up last in the listing, under its id, with
      a preview of at most 203 characters that begins with (up to 200 of)
      its content. */
  lemma AddThenList(records: seq<Record>, added: Record)
    ensures var listing := Listing(StoreGet(records + [added]));
            && |listing| == |records| + 1
            && listing[|records|].id == added.id
            && |listing[|records|].content| <= 203
            && var n := if |added.content| < PreviewLength then |added.content| else PreviewLength;
               listing[|records|].content[..n] == added.content[..n]
  {
    ListingOfCollection(records + [added]);
  }

  // ---------------------------------------------------------------------
  // The agent
  // ---------------------------------------------------------------------

  /** The answer of `get_collection_stats`. */
  datatype Stats = Stats(totalDocuments: nat, collectionName: string, embeddingDimension: nat) | StatsError(error: string)

  class RagAgent {
    const modelName: string
    const collectionName: string
    const topK: int
    /** The documents of the collection, in store order. */
    var records: seq<Record>

    /** The collection is opened or created under `collectionName`; a
        persistent store may already hold `stored`. */
    constructor (modelName: string, collectionName: string, topK: int, stored: seq<Record>)
      ensures this.modelName == modelName && this.collectionName == collectionName && this.topK == topK
      ensures records == stored
    {
      this.modelName := modelName;
      this.collectionName := collectionName;
      this.topK := topK;
      records := stored;
    }

    /** `add_document`: rejects blank content with ValueError, otherwise adds
        one document under the given id, or "doc_" + count() when none is
        given, with `{}` as default metadata, and returns the id. `count` and
        `add` say whether the store's `count()` (made only when no id is
        given) and `add()` calls complete or raise. */
    method AddDocument(content: string, metadata: Option<Metadata>, docId: Option<string>, count: StoreCall, add: StoreCall)
      returns (r: Result<string>)
      modifies this
      ensures IsBlank(content) ==> r == Err(ValueError(EmptyContentError)) && records == old(records)
      ensures !IsBlank(content) && docId.None? && count.Throws? ==> r == Err(Exception(count.error)) && records == old(records)
      ensures !IsBlank(content) && (docId.Some? || count.Completes?) && add.Throws? ==>
                r == Err(Exception(add.error)) && records == old(records)
      ensures !IsBlank(content) && (docId.Some? || count.Completes?) && add.Completes? ==>
                var id := if docId.Some? then docId.value else DefaultDocId(|old(records)|);
                && r == Ok(id)
                && records == old(records) + [Record(id, content, if metadata.Some? then metadata.value else map[])]
    {
      if Strip(content) == "" {
        return Err(ValueError(EmptyContentError));
      }
      var id: string;
      if docId.None? {
        if count.Throws? {
          return Err(Exception(count.error));
        }
        id := DefaultDocId(|records|);
      } else {
        id := docId.value;
      }
      var meta := if metadata.None? then map[] else metadata.value;
      if add.Throws? {
        return Err(Exception(add.error));
      }
      records := records + [Record(id, content, meta)];
      r := Ok(id);
    }

    /** `add_document_from_file`: FileNotFoundError for a missing path;
        otherwise the file's text is added under "file_" + stem + "_" +
        count(), with the caller's metadata updated by the file's source,
        name and suffix. The id, and so the store's `count()` call, comes
        before `add_document`'s blank check: a raising `count()` wins over
        a blank file. */
    method AddDocumentFromFile(filePath: string, metadata: Option<Metadata>, files: string -> FileState,
                               count: StoreCall, add: StoreCall)
      returns (r: Result<string>)
      modifies this
      ensures files(PathText(filePath)).Missing? ==>
                r == Err(FileNotFoundError("File not found: " + PathText(filePath))) && records == old(records)
      ensures files(PathText(filePath)).Unreadable? ==>
                r == Err(Exception(files(PathText(filePath)).error)) && records == old(records)
      ensures files(PathText(filePath)).Text? && count.Throws? ==>
                r == Err(Exception(count.error)) && records == old(records)
      ensures files(PathText(filePath)).Text? && count.Completes? ==>
                var content := files(PathText(filePath)).content;
                var id := FileDocId(Stem(Name(filePath)), |old(records)|);
                var meta := FileMetadata(if metadata.Some? then metadata.value else map[], filePath);
                && (IsBlank(content) ==> r == Err(ValueError(EmptyContentError)) && records == old(records))
                && (!IsBlank(content) && add.Throws? ==> r == Err(Exception(add.error)) && records == old(records))
                && (!IsBlank(content) && add.Completes? ==> r == Ok(id) && records == old(records) + [Record(id, content, meta)])
    {
      var path := PathText(filePath);
      match files(path) {
        case Missing =>
          return Err(FileNotFoundError("File not found: " + path));
        case Unreadable(e) =>
          return Err(Exception(e));
        case Text(content) =>
          var meta := if metadata.None? then map[] else metadata.value;
          meta := FileMetadata(meta, filePath);
          if count.Throws? {
            return Err(Exception(count.error));
          }
          var id := FileDocId(Stem(Name(filePath)), |records|);
          r := AddDocument(content, Some(meta), Some(id), count, add);
      }
    }

    /** `retrieve_documents`: asks the store for the `top_k` nearest documents
        (the agent's own `top_k` when none is given) and maps the answer's
        parallel lists into records, one per hit, in store order. */
    method RetrieveDocuments(query: string, topK: Option<int>, search: (string, int) -> Attempt<QueryResult>)
      returns (r: Attempt<seq<Hit>>)
      ensures r == Retrieval(search(query, if topK.None? then this.topK else topK.value))
    {
      var k := if topK.None? then this.topK else topK.value;
      var answer := search(query, k);
      if answer.Raised? {
        return Raised(answer.error);
      }
      var q := answer.value;
      var row := FirstRow(q);
      var hits: seq<Hit> := [];
      for i := 0 to |row|
        invariant Hits(q, i) == Returned(hits)
      {
        var h := HitAt(q, i);
        if h.Raised? {
          HitsFirstError(q, i, |row|);
          return Raised(h.error);
        }
        hits := hits + [h.value];
      }
      r := Returned(hits);
    }

    /** `generate_response`: retrieves with the agent's `top_k` when
        `includeContext` holds, builds the context parts in retrieval order,
        makes exactly one chat call unless retrieval raised, and turns any
        exception into "Error generating RAG response: ...". `prompts` lists
        the prompts sent to the chat service. */
    method GenerateResponse(query: string, includeContext: bool,
                            search: (string, int) -> Attempt<QueryResult>,
                            chat: (string, string) -> Attempt<string>)
      returns (reply: string, prompts: seq<string>)
      ensures var prompt := RagPrompt(query, includeContext, Retrieval(search(query, topK)));
              && prompts == (if prompt.Returned? then [prompt.value] else [])
              && reply == RagReply(prompt, if prompt.Returned? then chat(modelName, prompt.value) else Raised(""))
    {
      var contextText := "";
      if includeContext {
        var retrieved := RetrieveDocuments(query, None, search);
        if retrieved.Raised? {
          return "Error generating RAG response: " + retrieved.error, [];
        }
        var hits := retrieved.value;
        if hits != [] {
          contextText := BuildContext(hits);
        }
      }
      var prompt := Prompt(query, contextText);
      prompts := [prompt];
      var answer := chat(modelName, prompt);
      match answer {
        case Returned(text) => reply := text;
        case Raised(e) => reply := "Error generating RAG response: " + e;
      }
    }

    /** The context block of `generate_response`: one part per retrieved
        document, in retrieval order, joined by a blank line. */
    method BuildContext(hits: seq<Hit>) returns (contextText: string)
      ensures contextText == ContextText(hits)
    {
      var parts: seq<string> := [];
      for i := 0 to |hits|
        invariant parts == seq(i, j requires 0 <= j < i => ContextPart(hits[j]))
      {
        parts := parts + [ContextPart(hits[i])];
      }
      contextText := Join(parts, "\n\n");
    }

    /** `list_documents`: a summary of every document with a preview of its
        content; [] when the store's `get` raises. */
    method ListDocuments(store: StoreCall) returns (docs: seq<Summary>)
      ensures store.Throws? ==> docs == []
      ensures store.Completes? ==> docs == Listing(StoreGet(records))
    {
      if store.Throws? {
        return [];
      }
      var g := StoreGet(records);
      docs := [];
      if g.documents.value != [] {
        for i := 0 to |g.documents.value|
          invariant Summaries(g, i) == Some(docs)
        {
          var s := SummaryAt(g, i);
          if s.None? {
            SummariesFirstError(g, i, |g.documents.value|);
            return [];
          }
          docs := docs + [s.value];
        }
      }
    }

    /** `delete_document`: True and the document gone when the store's delete
        completes, False and nothing changed when it raises. */
    method DeleteDocument(docId: string, store: StoreCall) returns (ok: bool)
      modifies this
      ensures ok <==> store.Completes?
      ensures records == if ok then Without(old(records), docId) else old(records)
    {
      if store.Throws? {
        return false;
      }
      records := Without(records, docId);
      ok := true;
    }

    /** `clear_collection`: drops the collection and recreates it empty under
        the same name; True on success, False when the store raises. */
    method ClearCollection(store: StoreCall) returns (ok: bool)
      modifies this
      ensures ok <==> store.Completes?
      ensures records == if ok then [] else old(records)
    {
      if store.Throws? {
        return false;
      }
      records := [];
      ok := true;
    }

    /** `get_collection_stats`: the document count, the collection's name and
        the embedding dimension, or the error when a call raises. */
    method CollectionStats(store: StoreCall, dimension: Attempt<nat>) returns (stats: Stats)
      ensures store.Throws? ==> stats == StatsError(store.error)
      ensures store.Completes? && dimension.Raised? ==> stats == StatsError(dimension.error)
      ensures store.Completes? && dimension.Returned? ==> stats == Stats(|records|, collectionName, dimension.value)
    {
      if store.Throws? {
        return StatsError(store.error);
      }
      var count := |records|;
      match dimension {
        case Raised(e) => stats := StatsError(e);
        case Returned(d) => stats := Stats(count, collectionName, d);
      }
    }
  }
}
