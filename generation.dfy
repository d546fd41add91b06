/**
  The generation node (src/nodes/generate_node.py): picks the answer by
  bucket, cleans what the language model writes, and appends the exchange to
  the conversation history.

  The language model is the capability `llm`, from a system prompt and a user
  prompt to the text of its reply.
*/
module Generation {
  import opened Wrappers
  import opened Strings
  import opened Prompts
  import opened Router
  import opened State
  import opened ResponseCleaning

  /* The escalation messages of BUCKET_C, one per listed intent. */
  const ComplaintEscalation: string :=
    "I understand you're " + "experiencing an issue " + "and I sincerely "
    + "apologize for any " + "inconvenience. I'm " + "connecting you with a "
    + "senior support " + "specialist who can " + "better assist you and "
    + "ensure your concern is " + "fully addressed."
  const PaymentIssueEscalation: string :=
    "Payment issues require " + "immediate attention. " + "I'm escalating this to "
    + "our payment support " + "team right away. " + "They'll contact you "
    + "within the next 30 " + "minutes to resolve " + "this. In the meantime, "
    + "please don't attempt " + "any additional payments."
  const HumanAgentEscalation: string :=
    "I'm connecting you with " + "a human agent now. " + "They'll be with you "
    + "shortly. Thank you for " + "your patience."
  const CustomerServiceEscalation: string :=
    "Let me transfer you to " + "our customer service " + "team. They have access "
    + "to more tools and " + "resources to help with " + "your request. Please "
    + "hold for just a moment."

  /** The escalation text for any intent the table does not list. */
  const GenericEscalation: string :=
    "I'm escalating your " + "request to a specialist " + "who can provide better "
    + "assistance. You'll be " + "connected shortly. " + "Thank you for your "
    + "patience."

  /** The answer for a bucket the generator does not know. */
  const Apology: string :=
    "I apologize, but I'm " + "unable to process your " + "request at the moment. "
    + "Please contact our " + "support team directly."

  /** The escalation messages keyed by intent (the table of `_generate_bucket_c_response`). */
  const EscalationMessages: map<string, string> := map[
    "complaint" := ComplaintEscalation,
    "payment_issue" := PaymentIssueEscalation,
    "contact_human_agent" := HumanAgentEscalation,
    "contact_customer_service" := CustomerServiceEscalation
  ]

  /** The four intents with a dedicated escalation message, listed independently of the table. */
  const EscalationIntents: set<string> := {"complaint", "payment_issue", "contact_human_agent", "contact_customer_service"}

  /**
    `_generate_bucket_c_response`: the listed intents get their own message,
    every other intent the generic one; the answer is never empty.
  */
  function EscalationMessage(intent: string): (r: string)
    ensures r != ""
    ensures r == GenericEscalation <==> intent !in EscalationIntents
    ensures intent in EscalationIntents ==> r == EscalationMessages[intent]
  {
    if intent in EscalationMessages then EscalationMessages[intent] else GenericEscalation
  }

  // ---------------------------------------------------------------------------
  // The node
  // ---------------------------------------------------------------------------

  /** `_generate_bucket_a_response`: the intent's template, with no fallback. */
  function BucketAResponse(v: StateValue): string {
    GetDirectResponse(v.predictedIntent, None)
  }

  /** `_generate_bucket_b_response`: the model's reply to the RAG prompts, cleaned. */
  function BucketBResponse(v: StateValue, llm: (string, string) -> string): string {
    CleanResponse(llm(RagSystemPrompt, RagPrompt(v.retrievedContext, v.userQuery)))
  }

  /** `_generate_bucket_c_response`: the escalation message for the intent. */
  function BucketCResponse(v: StateValue): string {
    EscalationMessage(v.predictedIntent)
  }

  /** `__call__`'s dispatch on the bucket. */
  function ResponseFor(v: StateValue, llm: (string, string) -> string): string
  {
    if v.bucket == BucketA then BucketAResponse(v)
    else if v.bucket == BucketB then BucketBResponse(v, llm)
    else if v.bucket == BucketC then BucketCResponse(v)
    else Apology
  }

  /**
    The answer by bucket: for BUCKET_A the intent's template, or the default
    text when it has none (no fallback is passed); for BUCKET_B the cleaned
    reply of the model to the RAG system prompt and the RAG prompt over the
    retrieved context and the query; for BUCKET_C the intent's escalation
    message or the generic one; for any other bucket the apology.
  */
  lemma ResponseByBucket(v: StateValue, llm: (string, string) -> string)
    ensures v.bucket == BucketA && HasDirectResponse(v.predictedIntent) ==>
      ResponseFor(v, llm) == DirectResponseTemplates[v.predictedIntent]
    ensures v.bucket == BucketA && !HasDirectResponse(v.predictedIntent) ==>
      ResponseFor(v, llm) == DefaultDirectResponse
    ensures v.bucket == BucketB ==>
      ResponseFor(v, llm) == CleanResponse(llm(RagSystemPrompt, RagPrompt(v.retrievedContext, v.userQuery)))
    ensures v.bucket == BucketC && v.predictedIntent in EscalationIntents ==>
      ResponseFor(v, llm) == EscalationMessages[v.predictedIntent]
    ensures v.bucket == BucketC && v.predictedIntent !in EscalationIntents ==>
      ResponseFor(v, llm) == GenericEscalation
    ensures v.bucket != BucketA && v.bucket != BucketB && v.bucket != BucketC ==> ResponseFor(v, llm) == Apology
  {
  }

  /** The answer depends on bucket, intent, retrieved context and query only. */
  lemma ResponseReadsFourKeys(v1: StateValue, v2: StateValue, llm: (string, string) -> string)
    requires v1.bucket == v2.bucket && v1.predictedIntent == v2.predictedIntent
    requires v1.retrievedContext == v2.retrievedContext && v1.userQuery == v2.userQuery
    ensures ResponseFor(v1, llm) == ResponseFor(v2, llm)
  {
  }

  /** Only a model reply can leave the request without an answer. */
  lemma ResponseNonEmptyOutsideRag(v: StateValue, llm: (string, string) -> string)
    requires v.bucket != BucketB
    ensures ResponseFor(v, llm) != ""
  {
  }

  class GenerateNode {
    /** The language model for BUCKET_B: system prompt and user prompt to reply text. */
    const llm: (string, string) -> string

    constructor (llm: (string, string) -> string)
      ensures this.llm == llm
    {
      this.llm := llm;
    }

    /**
      The request after generation: the answer in `final_response`, and the
      query and the answer appended to the history, in that order.
    */
    function Step(v: StateValue): (w: StateValue)
    {
      var response := ResponseFor(v, llm);
      v.(finalResponse := response, messages := v.messages + [Human(v.userQuery), Ai(response)])
    }

    /** `__call__`: choose the answer, store it, extend the history. */
    method Call(state: ChatbotState)
      modifies state
      ensures state.value == old(Step(state.value))
    {
      var response := ResponseFor(state.value, llm);
      state.value := state.value.(finalResponse := response);
      state.value := state.value.(messages := state.value.messages + [Human(state.value.userQuery)]);
      state.value := state.value.(messages := state.value.messages + [Ai(response)]);
    }
  }

  /**
    Generation sets the answer and extends the history by exactly the query
    and the answer, keeping the earlier entries; intent, bucket, cost tier,
    action and everything else are left as they were.
  */
  lemma GenerateStepFacts(node: GenerateNode, v: StateValue)
    ensures var w := node.Step(v);
      && w.finalResponse == ResponseFor(v, node.llm)
      && |w.messages| == |v.messages| + 2
      && w.messages[..|v.messages|] == v.messages
      && w.messages[|v.messages|] == Human(v.userQuery)
      && w.messages[|v.messages| + 1] == Ai(w.finalResponse)
      && w.(finalResponse := v.finalResponse, messages := v.messages) == v
  {
  }
}
