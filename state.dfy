/**
  The per-request record the graph threads through its nodes
  (src/state/state.py): its keys as a record value, and the mutable
  dictionary that holds it as a class.
*/
module State {
  import opened Retrieval

  /** An entry of the conversation history. */
  datatype Message = Human(content: string) | Ai(content: string)

  /** The `llm_usage` counters `process` puts into the initial request. */
  datatype TokenUsage = TokenUsage(inputTokens: int, outputTokens: int, totalTokens: int)

  const NoUsage: TokenUsage := TokenUsage(0, 0, 0)

  /** Every key of the request record. */
  datatype StateValue = StateValue(
    userQuery: string,
    predictedIntent: string,
    confidence: real,
    bucket: string,
    retrievedDocuments: seq<RetrievedDocument>,
    retrievedContext: string,
    finalResponse: string,
    messages: seq<Message>,
    sentimentLabel: string,
    sentimentScore: real,
    hasAngerKeywords: bool,
    costTier: string,
    action: string,
    llmUsage: TokenUsage)

  /**
    The request `process` starts from: the query, empty strings, confidence
    0.0, empty lists and zero token usage. The three sentiment keys are not in
    the initial dictionary; they hold neutral values here until the intent
    node writes them.
  */
  function Initial(userQuery: string): StateValue {
    StateValue(userQuery, "", 0.0, "", [], "", "", [], "", 0.0, false, "", "", NoUsage)
  }

  /**
    The request dictionary the graph hands from node to node. Nodes write
    keys of it in place; each write is an update of the one record it holds.
  */
  class ChatbotState {
    var value: StateValue

    /** The initial dictionary built by `process`. */
    constructor (userQuery: string)
      ensures value == Initial(userQuery)
    {
      value := Initial(userQuery);
    }
  }
}
