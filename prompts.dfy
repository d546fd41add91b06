/**
  Prompt strings and the canned answers of the zero-cost tier
  (src/llm/prompts.py): two system prompts, two prompt builders, the
  eight direct-response templates and the lookups over them.
*/
module Prompts {
  import opened Wrappers
  import opened Strings

  /** System prompt for retrieval-augmented answers (BUCKET_B). */
  const RagSystemPrompt: string :=
    "You are a helpful " + "customer support " + "assistant.\n\n" + "Use the provided "
    + "context from the " + "knowledge base to " + "answer the customer's "
    + "question.\nIf the " + "context contains " + "relevant information, "
    + "use it to provide a " + "helpful answer.\n" + "If the context doesn't "
    + "contain relevant " + "information, provide a " + "general helpful "
    + "response and suggest " + "contacting support.\n" + "\nIMPORTANT " + "INSTRUCTIONS:\n"
    + "- Be professional, " + "concise, and " + "customer-focused\n" + "- Always maintain a "
    + "friendly and empathetic " + "tone\n- DO NOT include " + "any internal reasoning, "
    + "thinking process, or " + "XML tags like <think>, " + "<reasoning>, etc.\n"
    + "- Output ONLY the " + "customer-facing " + "response\n- Keep " + "responses clear and "
    + "well-structured"

  /** System prompt for escalated issues (BUCKET_C). */
  const EscalationSystemPrompt: string :=
    "You are a senior " + "customer support " + "specialist handling " + "escalated issues.\n"
    + "\nThe customer has been " + "routed to you because " + "their issue requires:\n"
    + "- Extra attention and " + "care\n- Complex " + "problem-solving\n" + "- Empathetic handling "
    + "of complaints or " + "sensitive situations\n" + "\nApproach:\n" + "1. Acknowledge their "
    + "concern with empathy\n" + "2. Ask clarifying " + "questions if needed\n"
    + "3. Provide detailed, " + "personalized solutions\n" + "4. Offer additional "
    + "assistance or " + "follow-up\n\n" + "Be professional, " + "empathetic, and "
    + "solution-focused."

  const RagHead: string := "Context from knowledge base:\n"
  const RagMiddle: string := "\n\nCustomer Question: "
  const RagTail: string :=
    "\n\nPlease provide a " + "helpful response based " + "on the context above."

  /**
    The user prompt for a BUCKET_B answer: the fixed header, the retrieved
    context and the question verbatim at known offsets, and the fixed closing
    instruction.
  */
  function RagPrompt(context: string, query: string): (r: string)
    ensures |r| == |RagHead| + |context| + |RagMiddle| + |query| + |RagTail|
    ensures StartsWith(r, RagHead)
    ensures r[|RagHead|..|RagHead| + |context|] == context
    ensures r[|RagHead| + |context|..|RagHead| + |context| + |RagMiddle|] == RagMiddle
    ensures r[|r| - |RagTail| - |query|..|r| - |RagTail|] == query
    ensures r[|r| - |RagTail|..] == RagTail
  {
    RagHead + context + RagMiddle + query + RagTail
  }

  /** Two RAG prompts with contexts of equal length are equal only for equal arguments. */
  lemma RagPromptInjective(c1: string, q1: string, c2: string, q2: string)
    requires |c1| == |c2| && RagPrompt(c1, q1) == RagPrompt(c2, q2)
    ensures c1 == c2 && q1 == q2
  {
    var r := RagPrompt(c1, q1);
    assert c1 == r[|RagHead|..|RagHead| + |c1|] == c2;
    assert q1 == r[|r| - |RagTail| - |q1|..|r| - |RagTail|] == q2;
  }

  const EscalationHead: string := "Customer Issue (Intent: "
  const EscalationMiddle: string := "):\n"
  const EscalationTail: string :=
    "\n\nPlease provide a " + "thoughtful, empathetic " + "response that addresses "
    + "their concern."

  /** The user prompt for an escalated issue: the intent and the query verbatim between fixed parts. */
  function EscalationPrompt(query: string, intent: string): (r: string)
    ensures |r| == |EscalationHead| + |intent| + |EscalationMiddle| + |query| + |EscalationTail|
    ensures StartsWith(r, EscalationHead)
    ensures r[|EscalationHead|..|EscalationHead| + |intent|] == intent
    ensures r[|EscalationHead| + |intent|..|EscalationHead| + |intent| + |EscalationMiddle|] == EscalationMiddle
    ensures r[|r| - |EscalationTail| - |query|..|r| - |EscalationTail|] == query
    ensures r[|r| - |EscalationTail|..] == EscalationTail
  {
    EscalationHead + intent + EscalationMiddle + query + EscalationTail
  }

  /** Canned answers of the zero-cost tier, keyed by intent. */
  const DirectResponseTemplates: map<string, string> := map[
      "check_invoice" :=
        "I can help you check " + "your invoice. Please " + "provide your order "
        + "number or email " + "address, and I'll look " + "it up for you right "
        + "away.",
      "check_payment_methods" :=
        "We accept the following " + "payment methods:\n" + "\U{2022} Credit/Debit "
        + "cards (Visa, " + "Mastercard, American " + "Express, Discover)\n" + "\U{2022} PayPal\n"
        + "\U{2022} Apple Pay\n" + "\U{2022} Google Pay\n" + "\U{2022} Bank transfer "
        + "(for orders over $500)\n" + "\nAll payments are " + "secure and encrypted.",
      "track_order" :=
        "I'd be happy to help " + "you track your order! " + "Please provide your "
        + "order number (found in " + "your confirmation " + "email), and I'll get "
        + "you the latest shipping " + "information.",
      "delivery_options" :=
        "We offer several " + "delivery options:\n" + "\nStandard Delivery: "
        + "5-7 business days (Free " + "on orders $50+)\n" + "Express Delivery: 2-3 "
        + "business days ($9.99)\n" + "Next Day Delivery: Next " + "business day ($19.99)\n"
        + "\nShipping costs may " + "vary by location and " + "will be calculated at "
        + "checkout.",
      "check_refund_policy" :=
        "Our refund policy:\n" + "\n\U{2022} 30-day " + "return window from "
        + "purchase date\n" + "\U{2022} Items must be " + "unused and in original "
        + "packaging\n\U{2022} " + "Full refund to original " + "payment method\n"
        + "\U{2022} Free return " + "shipping on defective " + "items\n\U{2022} 10% "
        + "restocking fee may " + "apply on some items\n" + "\nTo start a return, "
        + "visit your account's " + "order history or " + "contact us with your "
        + "order number.",
      "check_cancellation_fee" :=
        "Cancellation policy:\n" + "\n\U{2022} Free " + "cancellation within 24 "
        + "hours of order " + "placement\n\U{2022} " + "After 24 hours: 10% " + "processing fee may "
        + "apply\n\U{2022} Orders " + "already shipped cannot " + "be cancelled (but can "
        + "be returned)\n" + "\U{2022} Digital " + "products/services: " + "cancellation only "
        + "before " + "download/activation\n" + "\nTo cancel, go to your " + "order details or "
        + "contact us immediately.",
      "delivery_period" :=
        "Delivery timeframes:\n" + "\nStandard Delivery: " + "5-7 business days\n"
        + "Express Delivery: 2-3 " + "business days  \n" + "Next Day Delivery: 1 "
        + "business day (order by " + "2 PM)\n\nNote: Business " + "days exclude weekends "
        + "and holidays. You'll " + "receive tracking " + "information once your "
        + "order ships.",
      "track_refund" :=
        "To track your refund:\n" + "\n1. Provide your order " + "number\n2. I'll check "
        + "the refund status in " + "our system\n3. Refund " + "timeline:\n   \U{2022} "
        + "Processing: 3-5 " + "business days\n" + "   \U{2022} Bank/card " + "credit: 5-10 business "
        + "days after processing\n" + "   \nYou'll receive an " + "email confirmation once "
        + "the refund is processed."
    ]

  /** The answer given when there is neither a template nor a usable fallback. */
  const DefaultDirectResponse: string :=
    "I can help you with " + "that. Could you please " + "provide more details?"

  /** The eight intents that have a canned answer, listed independently of the table. */
  const TemplateIntents: set<string> := {"check_invoice", "check_payment_methods", "track_order", "delivery_options", "check_refund_policy", "check_cancellation_fee", "delivery_period", "track_refund"}

  lemma TemplatesNonEmpty()
    ensures DirectResponseTemplates.Keys == TemplateIntents
    ensures forall i :: i in DirectResponseTemplates ==> DirectResponseTemplates[i] != ""
  {
  }

  /** `has_direct_response`: the intent is one of the eight template keys. */
  function HasDirectResponse(intent: string): (b: bool)
    ensures b <==> intent in TemplateIntents
  {
    TemplatesNonEmpty();
    intent in DirectResponseTemplates
  }

  /**
    `get_direct_response(intent, fallback)`: the template when there is one,
    whatever the fallback; otherwise the fallback when it is truthy (neither
    `None` nor empty), else the default text. Never empty.
  */
  function GetDirectResponse(intent: string, fallback: Option<string>): (r: string)
    ensures HasDirectResponse(intent) ==> r == DirectResponseTemplates[intent]
    ensures !HasDirectResponse(intent) && fallback.Some? && fallback.value != "" ==> r == fallback.value
    ensures !HasDirectResponse(intent) && (fallback.None? || fallback.value == "") ==> r == DefaultDirectResponse
    ensures r != ""
  {
    TemplatesNonEmpty();
    var orDefault := if fallback.Some? && fallback.value != "" then fallback.value else DefaultDirectResponse;
    if intent in DirectResponseTemplates then DirectResponseTemplates[intent] else orDefault
  }

  /** With a template present, the fallback argument has no influence on the answer. */
  lemma TemplateIgnoresFallback(intent: string, f1: Option<string>, f2: Option<string>)
    requires HasDirectResponse(intent)
    ensures GetDirectResponse(intent, f1) == GetDirectResponse(intent, f2)
  {
  }
}
