/**
 * The metadata chatbot service: per-session chat histories kept in a
 * dictionary that is filled lazily, the classifier branch that picks the
 * conversational or the retrieval chain, the joining of retrieved documents
 * into one context text, and the catch-all around one invocation. The
 * language model, the classifier and the retriever are oracle parameters.
 */
module ChatbotService {
  import opened Wrappers
  import opened Text

  datatype Message = HumanMessage(text: string) | AiMessage(text: string)

  /** A chat history object; sessions share it by reference. */
  class ChatMessageHistory {
    var messages: seq<Message>

    constructor ()
      ensures messages == []
    {
      messages := [];
    }
  }

  /** A retrieved document; only its page content is used. */
  datatype Document = Document(pageContent: string)

  function Contents(docs: seq<Document>): (r: seq<string>)
    ensures |r| == |docs| && forall i :: 0 <= i < |docs| ==> r[i] == docs[i].pageContent
  {
    seq(|docs|, i requires 0 <= i < |docs| => docs[i].pageContent)
  }

  /** format_docs: the page contents joined by a blank line. */
  function FormatDocs(docs: seq<Document>): (r: string)
    ensures docs == [] ==> r == ""
    ensures |docs| == 1 ==> r == docs[0].pageContent
  {
    Join(Contents(docs), "\n\n")
  }

  /** Every document's content appears in the context text. */
  lemma FormatDocsKeepsEach(docs: seq<Document>, k: nat)
    requires k < |docs|
    ensures Contains(FormatDocs(docs), docs[k].pageContent)
  {
    JoinContainsPart(Contents(docs), "\n\n", k);
  }

  /** The contexts of two batches are joined by one blank line, so order is kept. */
  lemma FormatDocsAppend(a: seq<Document>, b: seq<Document>)
    requires a != [] && b != []
    ensures FormatDocs(a + b) == FormatDocs(a) + "\n\n" + FormatDocs(b)
  {
    assert Contents(a + b) == Contents(a) + Contents(b);
    JoinAppend(Contents(a), Contents(b), "\n\n");
  }

  /** The context is as long as the contents plus two characters between each two documents. */
  lemma FormatDocsLength(docs: seq<Document>)
    requires docs != []
    ensures |FormatDocs(docs)| == TotalLength(Contents(docs)) + 2 * (|docs| - 1)
  {
    JoinLength(Contents(docs), "\n\n");
  }

  datatype Route = Conversational | Retrieval

  const ConversationalLabel := "conversacional"

  /** The branch predicate: the lowered label mentions "conversacional"; everything else goes to retrieval. */
  function SelectRoute(topic: string): (r: Route)
    ensures r == Conversational <==> Contains(Lower(topic), ConversationalLabel)
    ensures r == Retrieval <==> !Contains(Lower(topic), ConversationalLabel)
  {
    if Contains(Lower(topic), ConversationalLabel) then Conversational else Retrieval
  }

  /** The test ignores case: an upper-case label still selects the conversational chain. */
  lemma ExampleUpperCaseConversational(topic: string)
    requires topic == "CONVERSACIONAL"
    ensures SelectRoute(topic) == Conversational
  {
    assert Lower(topic) == ConversationalLabel;
    ContainsAt(Lower(topic), ConversationalLabel, 0);
  }

  /** An empty label has no fallback of its own: it goes to retrieval. */
  lemma ExampleEmptyLabel()
    ensures SelectRoute("") == Retrieval
  {
  }

  /**
   * The chains' external steps: the classifier, the conversational chain
   * given the question and history, the retriever, and the retrieval chain
   * given the question, the context text and the history. None stands for a
   * step that raises.
   */
  datatype Models = Models(
    classify: string -> Option<string>,
    converse: (string, seq<Message>) -> Option<string>,
    retrieve: string -> Option<seq<Document>>,
    answer: (string, string, seq<Message>) -> Option<string>)

  /** branch_chain: classify the question, then run the chain the label selects. */
  function BranchChain(question: string, history: seq<Message>, m: Models): (r: Option<string>)
    ensures m.classify(question).None? ==> r.None?
    ensures m.classify(question).Some? && SelectRoute(m.classify(question).value) == Conversational ==>
      r == m.converse(question, history)
  {
    match m.classify(question)
    case None => None
    case Some(topic) =>
      match SelectRoute(topic)
      case Conversational => m.converse(question, history)
      case Retrieval =>
        match m.retrieve(question)
        case None => None
        case Some(docs) => m.answer(question, FormatDocs(docs), history)
  }

  /** On the retrieval route the answering model sees the retrieved documents joined into one context. */
  lemma RetrievalUsesContext(question: string, history: seq<Message>, m: Models)
    requires m.classify(question).Some? && SelectRoute(m.classify(question).value) == Retrieval
    requires m.retrieve(question).Some?
    ensures BranchChain(question, history, m)
      == m.answer(question, FormatDocs(m.retrieve(question).value), history)
  {
  }

  const UnexpectedError := "Ocorreu um erro inesperado ao processar sua solicitação."

  class ChatbotService {
    var sessionHistories: map<string, ChatMessageHistory>
    const models: Models

    constructor (models: Models)
      ensures sessionHistories == map[] && this.models == models
    {
      sessionHistories := map[];
      this.models := models;
    }

    /** get_session_history: the stored history for the id, or a fresh empty one stored under it. */
    method GetSessionHistory(sessionId: string) returns (history: ChatMessageHistory)
      modifies this
      ensures sessionId in sessionHistories && sessionHistories[sessionId] == history
      ensures sessionId in old(sessionHistories) ==>
        history == old(sessionHistories)[sessionId] && sessionHistories == old(sessionHistories)
      ensures sessionId !in old(sessionHistories) ==>
        fresh(history) && history.messages == []
        && sessionHistories == old(sessionHistories)[sessionId := history]
    {
      if sessionId !in sessionHistories {
        var created := new ChatMessageHistory();
        sessionHistories := sessionHistories[sessionId := created];
      }
      history := sessionHistories[sessionId];
    }

    /** get_response: run the branch with the session's history; any failure becomes the fixed apology. */
    method GetResponse(userQuery: string, sessionId: string) returns (response: string)
      modifies this
      ensures sessionId in sessionHistories
      ensures old(sessionHistories).Keys + {sessionId} == sessionHistories.Keys
      ensures forall id :: id in old(sessionHistories) ==> sessionHistories[id] == old(sessionHistories)[id]
      ensures sessionId !in old(sessionHistories) ==>
        fresh(sessionHistories[sessionId]) && sessionHistories[sessionId].messages == []
      ensures var outcome := BranchChain(userQuery, sessionHistories[sessionId].messages, models);
        response == if outcome.Some? then outcome.value else UnexpectedError
    {
      var history := GetSessionHistory(sessionId);
      var outcome := BranchChain(userQuery, history.messages, models);
      if outcome.Some? {
        response := outcome.value;
      } else {
        response := UnexpectedError;
      }
    }
  }

  /** Two calls with the same id share one history object, and other sessions keep theirs. */
  method SameSessionSameHistory(service: ChatbotService, sessionId: string, other: string)
    returns (first: ChatMessageHistory, second: ChatMessageHistory)
    requires other in service.sessionHistories && other != sessionId
    modifies service
    ensures first == second
    ensures other in service.sessionHistories
      && service.sessionHistories[other] == old(service.sessionHistories)[other]
  {
    first := service.GetSessionHistory(sessionId);
    second := service.GetSessionHistory(sessionId);
  }
}
