/**
  The intent node (src/nodes/intent_node.py): routing plus a hybrid
  sentiment check that can override the router and escalate to BUCKET_C.

  The sentiment pipeline is the capability `analyze`, from the raw query to
  its top label and score.
*/
module Sentiment {
  import opened Strings
  import opened Router
  import opened State

  /** Anger and frustration markers, matched as substrings of the lowercased message. */
  const AngerKeywords: seq<string> :=
    ["terrible", "horrible", "worst", "useless", "garbage", "pathetic", "frustrated"]
    + ["angry", "furious", "disappointed", "unacceptable", "ridiculous", "disgusted", "outraged"]
    + ["demand", "immediately", "never", "always", "!!", "wtf", "damn"]
    + ["awful", "disgusting", "incompetent", "idiots", "stupid", "hate", "fed up"]

  const NegativeLabel: string := "NEGATIVE"
  /** The sentiment score must be strictly above this for an escalation. */
  const EscalationScore: real := 0.75
  /** The cost tier written by a sentiment escalation (lower-case, unlike the router's). */
  const SentimentCostTier: string := "high"
  const EscalateSentiment: string := "escalate_sentiment"

  /** `any(keyword in text for keyword in keywords)` */
  function AnyKeywordIn(keywords: seq<string>, text: string): bool
    decreases |keywords|
  {
    if keywords == [] then false
    else Contains(text, keywords[0]) || AnyKeywordIn(keywords[1..], text)
  }

  /** The scan finds a keyword exactly when some keyword of the list occurs in the text. */
  lemma {:induction false} AnyKeywordInExactly(keywords: seq<string>, text: string)
    ensures AnyKeywordIn(keywords, text) <==> exists i :: 0 <= i < |keywords| && OccursIn(keywords[i], text)
    decreases |keywords|
  {
    if keywords != [] {
      AnyKeywordInExactly(keywords[1..], text);
      if AnyKeywordIn(keywords[1..], text) {
        var i :| 0 <= i < |keywords[1..]| && OccursIn(keywords[1..][i], text);
        assert keywords[i + 1] == keywords[1..][i];
      }
      if exists i :: 0 <= i < |keywords| && OccursIn(keywords[i], text) {
        var i :| 0 <= i < |keywords| && OccursIn(keywords[i], text);
        if i > 0 { assert keywords[1..][i - 1] == keywords[i]; }
      }
    }
  }

  /** The keyword half of `_analyze_sentiment`. */
  function HasAnger(message: string): bool {
    AnyKeywordIn(AngerKeywords, Lower(message))
  }

  /**
    A message is flagged exactly when some anger keyword occurs anywhere in
    its lowercased text, inside a longer word or not.
  */
  lemma HasAngerExactly(message: string)
    ensures HasAnger(message) <==> exists i :: 0 <= i < |AngerKeywords| && OccursIn(AngerKeywords[i], Lower(message))
  {
    AnyKeywordInExactly(AngerKeywords, Lower(message));
  }

  /** A lower-case keyword written between two strings occurs in the lowercased whole. */
  lemma KeywordBetween(before: string, keyword: string, after: string)
    requires Lower(keyword) == keyword
    ensures OccursAt(keyword, Lower(before + keyword + after), |before|)
  {
    var m := before + keyword + after;
    assert forall j :: 0 <= j < |keyword| ==> Lower(m)[|before| + j] == LowerChar(keyword[j]) == Lower(keyword)[j];
  }

  /** A message that contains an anger keyword (written in lower case) is flagged, whatever surrounds it. */
  lemma KeywordInside(before: string, i: nat, after: string)
    requires i < |AngerKeywords| && Lower(AngerKeywords[i]) == AngerKeywords[i]
    ensures HasAnger(before + AngerKeywords[i] + after)
  {
    KeywordBetween(before, AngerKeywords[i], after);
    HasAngerExactly(before + AngerKeywords[i] + after);
  }

  /*
    The angry queries of the sentiment-routing scenarios, each written as the
    text around the keyword that flags it.
  */

  lemma TerribleQueryIsAngry()
    ensures HasAnger("This is " + "terrible" + "! I want my money back immediately!")
  {
    assert AngerKeywords[0] == "terrible";
    KeywordInside("This is ", 0, "! I want my money back immediately!");
  }

  lemma UselessQueryIsAngry()
    ensures HasAnger("Your customer service is absolutely " + "useless" + "! Nobody is helping me!")
  {
    assert AngerKeywords[3] == "useless";
    KeywordInside("Your customer service is absolutely ", 3, "! Nobody is helping me!");
  }

  lemma DisappointedQueryIsAngry()
    ensures HasAnger("I'm extremely " + "disappointed" + " with this purchase. This is unacceptable!")
  {
    assert AngerKeywords[9] == "disappointed";
    KeywordInside("I'm extremely ", 9, " with this purchase. This is unacceptable!");
  }

  /** What the sentiment pipeline reports for a message: its top label and score. */
  datatype SentimentScore = SentimentScore(sentiment: string, score: real)

  /** The dictionary `_analyze_sentiment` returns. */
  datatype SentimentResult = SentimentResult(sentiment: string, score: real, hasAnger: bool)

  /** Negative, confidently so (strictly above 0.75), and angry in words. */
  predicate ShouldEscalate(s: SentimentResult) {
    s.sentiment == NegativeLabel && s.score > EscalationScore && s.hasAnger
  }

  /**
    The override of `__call__`: when escalation is called for and the router
    did not already choose BUCKET_C, the result moves to BUCKET_C with cost
    tier "high" and action "escalate_sentiment"; otherwise it is untouched.
  */
  function Override(r: RouteResult, escalate: bool): (o: RouteResult)
    ensures escalate && r.bucket != BucketC ==>
      o.bucket == BucketC && o.costTier == SentimentCostTier && o.action == EscalateSentiment
    ensures !escalate || r.bucket == BucketC ==> o == r
    ensures o == r.(bucket := o.bucket, costTier := o.costTier, action := o.action)
    ensures o.bucket == r.bucket || o.bucket == BucketC
  {
    if escalate && r.bucket != BucketC then
      r.(bucket := BucketC, costTier := SentimentCostTier, action := EscalateSentiment)
    else r
  }

  /** Applying the override twice is the same as applying it once. */
  lemma OverrideIdempotent(r: RouteResult, escalate: bool)
    ensures Override(Override(r, escalate), escalate) == Override(r, escalate)
  {
  }

  /** `escalated_by_sentiment` as the API derives it from the final action. */
  predicate EscalatedBySentiment(v: StateValue) {
    v.action == EscalateSentiment
  }

  class IntentNode {
    const router: IntentRouter
    /** The sentiment-analysis pipeline. */
    const analyze: string -> SentimentScore

    constructor (router: IntentRouter, analyze: string -> SentimentScore)
      ensures this.router == router && this.analyze == analyze
    {
      this.router := router;
      this.analyze := analyze;
    }

    /** `_analyze_sentiment`: the pipeline's verdict on the raw message, plus the keyword check. */
    function AnalyzeSentiment(message: string): SentimentResult {
      SentimentResult(analyze(message).sentiment, analyze(message).score, HasAnger(message))
    }

    /**
      The request after the intent node. The router sees the query (and
      cleans it), the sentiment check sees it raw; the intent and confidence
      are the router's, the sentiment fields are the check's, and only
      bucket, cost tier and action can differ from the router's answer.
    */
    function Step(v: StateValue): (w: StateValue)
      requires router.Classifiable(CleanText(v.userQuery))
    {
      var routed := router.RouteMessage(v.userQuery);
      var sentiment := AnalyzeSentiment(v.userQuery);
      var final := Override(routed, ShouldEscalate(sentiment));
      v.(predictedIntent := final.predictedIntent, confidence := final.confidence, bucket := final.bucket,
         costTier := final.costTier, action := final.action, sentimentLabel := sentiment.sentiment,
         sentimentScore := sentiment.score, hasAngerKeywords := sentiment.hasAnger)
    }

    /** `__call__`: route, analyse, maybe override, then write eight fields of the request. */
    method Call(state: ChatbotState)
      requires router.Classifiable(CleanText(state.value.userQuery))
      modifies state
      ensures state.value == old(Step(state.value))
    {
      var query := state.value.userQuery;
      var routing := router.RouteMessage(query);
      var sentiment := AnalyzeSentiment(query);
      var final := Override(routing, ShouldEscalate(sentiment));
      state.value := state.value.(predictedIntent := final.predictedIntent, confidence := final.confidence,
        bucket := final.bucket, costTier := final.costTier, action := final.action);
      state.value := state.value.(sentimentLabel := sentiment.sentiment, sentimentScore := sentiment.score,
        hasAngerKeywords := sentiment.hasAnger);
    }
  }

  /**
    What the intent node guarantees about the request it hands on: intent
    and confidence from the router on the cleaned query, sentiment fields
    from the raw query, a bucket that is the router's or BUCKET_C, and a
    change of bucket only for a negative (score above 0.75), angry message.
    Query, retrieval, response, history and usage are left alone.
  */
  lemma StepFacts(node: IntentNode, v: StateValue)
    requires node.router.Classifiable(CleanText(v.userQuery))
    ensures var w := node.Step(v);
      var routed := node.router.RouteMessage(v.userQuery);
      && routed.cleanedText == CleanText(v.userQuery)
      && w.predictedIntent == routed.predictedIntent && w.confidence == routed.confidence
      && w.sentimentLabel == node.analyze(v.userQuery).sentiment
      && w.sentimentScore == node.analyze(v.userQuery).score
      && w.hasAngerKeywords == HasAnger(v.userQuery)
      && (w.bucket == routed.bucket || w.bucket == BucketC)
      && (w.bucket != routed.bucket ==>
            w.sentimentLabel == NegativeLabel && w.sentimentScore > EscalationScore && w.hasAngerKeywords
            && w.costTier == SentimentCostTier && w.action == EscalateSentiment)
      && (routed.bucket == BucketC ==> w.bucket == BucketC && w.costTier == routed.costTier && w.action == routed.action)
      && w.userQuery == v.userQuery && w.retrievedDocuments == v.retrievedDocuments
      && w.retrievedContext == v.retrievedContext && w.finalResponse == v.finalResponse
      && w.messages == v.messages && w.llmUsage == v.llmUsage
  {
  }

  /**
    When no configured bucket is itself called "escalate_sentiment", the API
    reports a sentiment escalation exactly when the override fired.
  */
  lemma EscalatedBySentimentExactly(node: IntentNode, v: StateValue)
    requires node.router.Classifiable(CleanText(v.userQuery))
    requires forall i :: i in node.router.intentToBucket ==> node.router.intentToBucket[i].bucket != EscalateSentiment
    ensures EscalatedBySentiment(node.Step(v)) <==>
      ShouldEscalate(node.AnalyzeSentiment(v.userQuery)) && node.router.RouteMessage(v.userQuery).bucket != BucketC
  {
    var routed := node.router.RouteMessage(v.userQuery);
    var d := node.router.GetRoutingDecision(routed.predictedIntent, routed.confidence);
    assert routed.action == d.action;
  }
}
