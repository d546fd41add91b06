# Customer-support chatbot core, modelled in Dafny

This project models the request path of the customer-support chatbot (vivek34561/Customer-Support-Chatbot):

- **Intent router.** The `IntentRouter` cleans the user's message (placeholders removed, lower case, whitespace collapsed). It summarises the classifier's answer into an intent, a confidence and the top three predictions. It then routes the request:
  - BUCKET_A is the zero-cost canned answers;
  - BUCKET_B is retrieval plus a small model;
  - BUCKET_C is escalation.
  Routing uses a confidence threshold and an intent-to-bucket table built from the routing configuration.
- **Intent node.** It adds a hybrid sentiment check: a negative verdict scored above 0.75, together with an anger keyword, overrides the bucket to BUCKET_C.
- **Graph.** The LangGraph workflow runs intent → (retrieve) → generate. The branch `_should_retrieve` sends BUCKET_A requests whose intent has no template to retrieval as BUCKET_B.
- **Retriever.** The `RagRetriever` caches query embeddings (at most 1000), filters the index's hits against the metadata list, and formats them as numbered context blocks.
- **Generation node.** The `GenerateNode` answers according to the bucket:
  - a template for BUCKET_A;
  - the cleaned reply of the language model to the RAG prompts for BUCKET_B;
  - an escalation message for BUCKET_C;
  - an apology for any other bucket.
  It then appends the query and the answer to the history.
- **Prompts.** The prompt texts and the template table.

Modules follow the source files:

| module | file |
|---|---|
| `Prompts` | `src/llm/prompts.py` |
| `Router` | `intent_router.py` |
| `Sentiment` | `src/nodes/intent_node.py` |
| `Retrieval` | `src/retriever.py` |
| `ResponseCleaning` | the `_clean_response` part of `src/nodes/generate_node.py` |
| `Generation` | the rest of `src/nodes/generate_node.py` |
| `Graph` | `src/graph/chatbot_graph.py` |
| `State` | the request record of `src/state/state.py` |

`Strings` states the few Python `str` operations the code uses, over ASCII. `Wrappers` holds `Option`.

The learned and remote components are function-valued `const` fields, so every run is a function of them:

- the TF-IDF vectoriser together with the logistic-regression model (`classify`);
- the sentiment pipeline (`analyze`);
- the sentence encoder (`encode`);
- the FAISS search (`search`);
- the language model (`llm`);
- the retrieval node (`fetch`).

The request dictionary is the class `State.ChatbotState`. Its one field holds a `StateValue` record, and each node's `Call` rewrites it in place. Each `Call` is proved to leave exactly `Step` of the old record. The graph's `Process` runs the nodes in the order of the built workflow and returns the final record. `Process` is proved equal to the composed `Pipeline` function and to the node sequence `Walk` produces on the built graph.

Notes on what the code does, which the model keeps:

- **Cost tier.** The code writes `"High"` for router escalations, the configured string for routed intents, `"high"` for sentiment escalations and `"low"` for the missing-template fallback. The model keeps those exact strings, so the tier is not always one of zero/low/high in one letter case.
- **Token usage.** The code never writes `llm_usage` after `process` sets it to zeros, so the model proves it stays zero (`Graph.ProcessFacts`).
- **Generation output.** The generation node uses only the text of the language model's reply; token counts from the reply are not read.

## Model

| member | source | states |
|---|---|---|
| Strings.Strip | intent_router.py:148 | the result is a slice of the input that drops only whitespace on either side and neither starts nor ends with whitespace |
| Strings.Contains | src/nodes/intent_node.py:59 | Python's `needle in hay` holds exactly when some window of `hay` equals `needle` |
| Strings.IndexOf | src/nodes/generate_node.py:41 | finds the leftmost matching window, or reports that none matches |
| Strings.NatToString | src/retriever.py:143-146 | `str(i)` for the block number: decimal digits, at least one, no leading zero |
| Strings.ParseNatToString | src/retriever.py:143-146 | reading the digits back gives the number, so distinct blocks carry distinct numbers |
| Prompts.RagPrompt | src/llm/prompts.py:24-40 | the prompt is the fixed head, the context, the fixed middle, the query and the fixed tail, each verbatim and in order |
| Prompts.RagPromptInjective | src/llm/prompts.py:35-40 | equal prompts with contexts of equal length come from equal contexts and queries |
| Prompts.EscalationPrompt | src/llm/prompts.py:60-74 | the prompt embeds the intent and then the query verbatim between fixed parts |
| Prompts.TemplatesNonEmpty | src/llm/prompts.py:78-136 | the template table has exactly the eight listed intents as keys, each with a non-empty answer |
| Prompts.HasDirectResponse | src/llm/prompts.py:156-166 | true exactly for the eight template intents |
| Prompts.GetDirectResponse | src/llm/prompts.py:139-153 | the template if there is one; otherwise a non-empty fallback; otherwise the default answer; never empty |
| Prompts.TemplateIgnoresFallback | src/llm/prompts.py:150-153 | with a template present the fallback has no effect |
| Router.FindClose | intent_router.py:142 | the lazy `.*?\}\}` stops at the first `}}` and only if no line break comes before it |
| Router.ClosesSurvive | intent_router.py:142 | a placeholder close left in the output was a close in the input |
| Router.NoPlaceholderLeft | intent_router.py:142 | after the substitution no `{{ … }}` on one line remains |
| Router.RemovePlaceholdersWithoutOpening | intent_router.py:142 | a text with no `{{` in it comes back unchanged |
| Router.RemovePlaceholdersLeading | intent_router.py:142 | a leading `{{ c }}` that closes at its first `}}` on the same line is deleted whole and nothing else: the rest is cleaned as if it stood alone |
| Router.RemovePlaceholdersKeepsPrefix | intent_router.py:142 | text in front in which no placeholder opens is kept character for character |
| Router.RemovePlaceholdersBlockAfter | intent_router.py:142 | inside a text, such a placeholder is deleted and the text in front of it is kept unchanged |
| Router.CollapseSpaces | intent_router.py:149 | every whitespace run becomes one plain space: no two adjacent whitespace characters, every whitespace character left is `' '`, and the first and last character keep their whitespace-ness |
| Router.CollapseKeepsText | intent_router.py:149 | collapsing keeps every non-whitespace character, in order |
| Router.CollapseKeepsWords | intent_router.py:149 | collapsing keeps the words and their separation: `s.split()` of the result equals `s.split()` of the input, so no two words are glued together |
| Router.CollapseKeepsNoUpper | intent_router.py:145-149 | collapsing after lowercasing introduces no upper-case letter |
| Router.CleanText | intent_router.py:130-151 | the cleaned text is lower-case, has no leading or trailing whitespace, is single-spaced and separates words by plain spaces only |
| Router.CleanTextKeepsText | intent_router.py:130-151 | cleaning changes only placeholders, case and whitespace: the non-whitespace text equals that of the lowercased input after `RemovePlaceholders`, whose removals the `RemovePlaceholders…` rows pin down |
| Router.CleanTextKeepsWords | intent_router.py:130-151 | the words of the cleaned text are exactly the words of the lowercased, placeholder-free input, in order |
| Router.MaxOf | intent_router.py:190 | the maximum is one of the probabilities and no probability exceeds it |
| Router.InsertDescending | intent_router.py:199 | insertion keeps the list non-increasing and adds exactly one element |
| Router.InsertDescendingStable | intent_router.py:199 | entries of equal probability keep their relative order |
| Router.SortDescending | intent_router.py:199 | `sorted(..., reverse=True)`: non-increasing and a permutation of its input |
| Router.SortDescendingStable | intent_router.py:199 | the sort is stable: equal probabilities keep their order |
| Router.TopEntries | intent_router.py:199 | the first n sorted entries come from the table and no left-out entry beats the last of them |
| Router.TopIsMax | intent_router.py:190-199 | the most probable sorted entry carries the confidence `max(probabilities)` |
| Router.TopThreeStable | intent_router.py:199 | among the top three, equal probabilities keep table order |
| Router.PredictIntent | intent_router.py:153-206 | the label is the model's; the confidence is the maximum probability; the table pairs classes and probabilities; the top three are the most probable entries, non-increasing, stable, led by the confidence |
| Router.LastListing | intent_router.py:120-126 | finds the last bucket in file order whose intent list names the intent |
| Router.AddIntentsLookup | intent_router.py:121-126 | the inner loop maps every listed intent to the bucket's entry and keeps other keys |
| Router.IntentMappingLookup | intent_router.py:116-128 | after the nested loop an intent maps to the entry of the last bucket listing it; unlisted intents keep their old value |
| Router.BuildIntentMapping | intent_router.py:116-128 | the nested loop builds exactly `IntentMapping` of the configured buckets |
| Router.IntentRouter.constructor | intent_router.py:38-61 | the router holds the configuration, the intent table built from the configuration, and the threshold: the argument if one is given (even 0.0), else the configured one, else 0.5 |
| Router.IntentRouter.GetRoutingDecision | intent_router.py:208-259 | low confidence escalates first whatever the intent; an intent not in the table escalates as unknown; otherwise the configured bucket with the bucket as action and the configured cost; the bucket is always BUCKET_C or the table's |
| Router.IntentRouter.RouteMessage | intent_router.py:261-307 | the classifier sees the cleaned text; the decision fields are those of `get_routing_decision` on the predicted intent and confidence |
| Router.ConfidenceAboveThresholdIsIrrelevant | intent_router.py:224-259 | once confidence clears the threshold, a higher confidence gives the same decision |
| Router.ListedIntentRoutesToItsBucket | intent_router.py:233-259 | a confidently classified intent goes to the last bucket listing it, at that bucket's configured cost (default "Unknown"); an unlisted one escalates as unknown |
| Retrieval.CacheAfter | src/retriever.py:87-89 | a lookup never changes cached entries, adds only the looked-up query and only while fewer than 1000 are cached, and keeps the cache at most 1000 |
| Retrieval.FullCacheIsFrozen | src/retriever.py:88 | once the cache holds 1000 entries no sequence of lookups changes it |
| Retrieval.CacheStaysBounded | src/retriever.py:87-89 | any sequence of lookups keeps the cache at most 1000 entries and never changes an entry |
| Retrieval.KeptHitsAppend | src/retriever.py:117-124 | filtering keeps the index's order: it distributes over concatenation |
| Retrieval.KeptHitsComeFromMetadata | src/retriever.py:117-124 | every result is the metadata entry some hit names, with that hit's score |
| Retrieval.KeptHitsAllInRange | src/retriever.py:117-124 | with all positions in range nothing is dropped and result i comes from hit i |
| Retrieval.KeptHitsAsWritten | src/retriever.py:119 | the filter as written: only `idx < len(metadata)`, with Python's negative indexing |
| Retrieval.AsWrittenAgreesOnNonNegative | src/retriever.py:119 | without negative positions the written and corrected filters agree |
| Retrieval.PaddingHitDuplicatesLastEntry | src/retriever.py:119 | a padding hit at -1 makes the written filter return the last entry a second time; the corrected one drops it |
| Retrieval.CollectResults | src/retriever.py:117-124 | the loop returns exactly the corrected filter of the hits |
| Retrieval.FormatContext | src/retriever.py:128-152 | no documents give the no-information text; one document gives exactly its numbered block; more start with the first numbered block, so the result is never the no-information text |
| Retrieval.FormatContextAppend | src/retriever.py:141-152 | one more document appends a blank line and the next numbered block |
| Retrieval.RagRetriever.constructor | src/retriever.py:32-64 | a retriever starts with an empty cache |
| Retrieval.RagRetriever.CreateQueryEmbedding | src/retriever.py:66-91 | returns the encoder's embedding, the cached one on a hit; calls the encoder only on a miss; the cache becomes `CacheAfter` and stays consistent and bounded |
| Retrieval.RagRetriever.Retrieve | src/retriever.py:93-126 | results are the hits of the search for the query's embedding with the effective k (`top_k or self.top_k`), kept by the corrected filter `0 <= position < len(metadata)` (see Findings); the cache is updated as by one lookup |
| State.ChatbotState.constructor | src/graph/chatbot_graph.py:122-134 | the initial request: the query, empty strings, zero confidence, empty lists and zero token usage |
| Sentiment.AnyKeywordInExactly | src/nodes/intent_node.py:59 | `any(keyword in text ...)` holds exactly when some keyword occurs in the text |
| Sentiment.HasAngerExactly | src/nodes/intent_node.py:58-59 | the keyword check is true exactly when some anger keyword occurs in the lowercased message |
| Sentiment.KeywordInside | src/nodes/intent_node.py:23-29 | a message containing any lower-case anger keyword is flagged, whatever surrounds it |
| Sentiment.TerribleQueryIsAngry | test_sentiment_routing.py:46 | the angry refund request contains an anger keyword |
| Sentiment.UselessQueryIsAngry | test_sentiment_routing.py:51 | the frustrated query contains an anger keyword |
| Sentiment.DisappointedQueryIsAngry | test_sentiment_routing.py:56 | the disappointed query contains an anger keyword |
| Sentiment.Override | src/nodes/intent_node.py:96-106 | escalation of a non-C result moves it to BUCKET_C with cost "high" and action "escalate_sentiment"; otherwise nothing changes; no other field ever changes |
| Sentiment.OverrideIdempotent | src/nodes/intent_node.py:99-106 | applying the override twice equals applying it once |
| Sentiment.IntentNode.constructor | src/nodes/intent_node.py:31-50 | the node holds its router and its sentiment pipeline (loaded on first use in the source) |
| Sentiment.IntentNode.Call | src/nodes/intent_node.py:67-127 | the request after the call is `Step` of the request before it |
| Sentiment.StepFacts | src/nodes/intent_node.py:82-118 | intent and confidence are the router's; sentiment fields come from the raw query; the bucket is the router's or BUCKET_C and changes only for a negative, above-0.75, angry message; query, retrieval, answer, history and usage are untouched |
| Sentiment.EscalatedBySentimentExactly | api.py:162 | when no bucket is named "escalate_sentiment", the API's flag is set exactly when the override fired |
| ResponseCleaning.RemoveTaggedWithoutOpening | src/nodes/generate_node.py:41-46 | text without the opening tag, in any case, passes unchanged |
| ResponseCleaning.RemoveTaggedLeadingBlock | src/nodes/generate_node.py:41-46 | a block at the start, tags in any letter case, whose first closing tag (searched in lower case from its content on) is its own, is removed whole and the pass continues after it |
| ResponseCleaning.RemoveTaggedKeepsPrefix | src/nodes/generate_node.py:41-46 | text in front in which no block opens (no opening tag, in any letter case, that a closing tag follows) is kept character for character, an unclosed opening tag included |
| ResponseCleaning.RemoveTaggedUnclosed | src/nodes/generate_node.py:41-46 | an opening tag that no closing tag follows is not matched: a text in which no closing tag comes after any opening tag, such as a reply cut off inside a block, passes unchanged |
| ResponseCleaning.RemoveTaggedBlockAfter | src/nodes/generate_node.py:41-46 | `a + block + rest` becomes `a + pass(rest)` when no opening tag starts in `a` and the block's first closing tag is its own |
| ResponseCleaning.RemoveInternalTags | src/nodes/generate_node.py:41-46 | the four passes, in source order, never lengthen the text |
| ResponseCleaning.CollapseLeadingNewlines | src/nodes/generate_node.py:49 | collapsing never adds line breaks to the leading whitespace |
| ResponseCleaning.CollapseLeavesNoBlankRun | src/nodes/generate_node.py:49 | afterwards no whitespace run holds three line breaks |
| ResponseCleaning.CollapseWithoutBlankRun | src/nodes/generate_node.py:49 | text without such a run is unchanged |
| ResponseCleaning.CollapseIdempotent | src/nodes/generate_node.py:49 | collapsing twice is collapsing once |
| ResponseCleaning.CollapseKeepsNoNewlinePrefix | src/nodes/generate_node.py:49 | text in front without a line break is kept as it is |
| ResponseCleaning.CollapseShortRun | src/nodes/generate_node.py:49 | a whitespace run with fewer than three line breaks is kept as it is |
| ResponseCleaning.CollapseBlankRun | src/nodes/generate_node.py:49 | in a whitespace run with three or more line breaks, the part from its first to its last line break becomes exactly `\n\n`; the whitespace before and after that part is kept |
| ResponseCleaning.CollapseSplitsAtText | src/nodes/generate_node.py:49 | the collapse works run by run: cut after any non-whitespace character, collapsing the whole is collapsing the two parts |
| ResponseCleaning.CleanResponse | src/nodes/generate_node.py:30-52 | the cleaned reply is no longer than the raw one, neither starts nor ends with whitespace, and holds no whitespace run with three line breaks |
| ResponseCleaning.StripKeepsNoBlankRun | src/nodes/generate_node.py:50 | `strip()` adds no blank run to text that has none |
| ResponseCleaning.CleanResponseOfCleanReply | src/nodes/generate_node.py:30-52 | a reply with no internal tag and no blank run is only stripped |
| ResponseCleaning.CleanResponseWithoutTags | src/nodes/generate_node.py:30-52 | on a reply without internal tags, cleaning is exactly the blank-line collapse followed by `strip()` |
| ResponseCleaning.ThinkPreambleVanishes | src/nodes/generate_node.py:41 | a leading `<think>…</think>` block, in any letter case, whose first closing tag is its own, does not affect the cleaned reply |
| Generation.EscalationMessage | src/nodes/generate_node.py:110-127 | never empty; the listed intent's message; the generic text exactly for intents not listed |
| Generation.ResponseByBucket | src/nodes/generate_node.py:54-154 | BUCKET_A answers with the template or the default; BUCKET_B with the cleaned model reply to the RAG prompts over context and query; BUCKET_C with the intent's or the generic escalation; any other bucket with the apology |
| Generation.ResponseReadsFourKeys | src/nodes/generate_node.py:139-154 | the answer depends only on bucket, intent, retrieved context and query |
| Generation.ResponseNonEmptyOutsideRag | src/nodes/generate_node.py:139-154 | outside BUCKET_B the answer is never empty |
| Generation.GenerateNode.constructor | src/nodes/generate_node.py:25-28 | the node holds its language model |
| Generation.GenerateNode.Call | src/nodes/generate_node.py:129-168 | the request after the call is `Step` of the request before it |
| Generation.GenerateStepFacts | src/nodes/generate_node.py:157-164 | the answer is stored; the history grows by exactly the query and the answer, keeping earlier entries; nothing else changes |
| Graph.BuildGraph | src/graph/chatbot_graph.py:70-105 | entry "intent", a conditional edge out of "intent" to retrieve or generate, edges out of retrieve and generate |
| Graph.WalkOrder | src/graph/chatbot_graph.py:75-102 | the run visits intent, retrieve, generate for the choice "retrieve" and intent, generate otherwise, then END |
| Graph.BranchLabel | src/graph/chatbot_graph.py:32-68 | "retrieve" exactly for BUCKET_B or a BUCKET_A intent without a template; otherwise "generate" |
| Graph.BranchFacts | src/graph/chatbot_graph.py:47-68 | retrieval always runs as BUCKET_B; only the missing-template case rewrites bucket and cost "low"; BUCKET_C and unknown buckets generate directly; a BUCKET_A request that stays A has a template |
| Graph.BranchIdempotent | src/graph/chatbot_graph.py:32-68 | the branch on its own output changes nothing and answers the same |
| Graph.RetrieveNode.constructor | src/graph/chatbot_graph.py:24 | the node holds its retriever |
| Graph.RetrieveNode.Call | src/graph/chatbot_graph.py:84 | the request after the call is `Step` of the request before it |
| Graph.RetrieveStepFacts | src/graph/chatbot_graph.py:84 | retrieval writes documents and context and nothing else |
| Graph.CustomerSupportGraph.constructor | src/graph/chatbot_graph.py:18-28 | the graph holds its three nodes |
| Graph.CustomerSupportGraph.ShouldRetrieve | src/graph/chatbot_graph.py:32-68 | answers `BranchLabel` of the request and leaves `AfterBranch` of it |
| Graph.CustomerSupportGraph.RunFromBranch | src/graph/chatbot_graph.py:91-102 | from the branch on, the request becomes `Finish` of the classified one and the nodes run as `Walk` prescribes |
| Graph.CustomerSupportGraph.Process | src/graph/chatbot_graph.py:107-141 | the final request equals the composed `Pipeline` of the initial one, and the nodes visited are the walk of the built graph |
| Graph.CustomerSupportGraph.GetResponse | src/graph/chatbot_graph.py:143-154 | the answer is the final request's response |
| Graph.RetrievesExactlyForBucketB | src/graph/chatbot_graph.py:50-68 | retrieval ran exactly when the final bucket is BUCKET_B |
| Graph.BucketAAnswersWithTemplate | src/graph/chatbot_graph.py:50-60 | a run that ends in BUCKET_A had a template and answers with it, never the default |
| Graph.MissingTemplateAnswersDefaultAsWritten | src/graph/chatbot_graph.py:55-56 | if the branch's two writes are lost, a BUCKET_A request without a template is retrieved for but still answered with the default BUCKET_A text |
| Graph.MissingTemplateFallsBackToRag | src/graph/chatbot_graph.py:50-57 | with the branch's writes kept, such a request ends in BUCKET_B at cost "low" and is answered by the model from the retrieved context |
| Graph.FinishFacts | src/graph/chatbot_graph.py:91-102 | after branch, retrieval and generation: query, intent, confidence, action, sentiment and usage are unchanged; history grows by query and answer; without retrieval the retrieval keys are untouched |
| Graph.ProcessFacts | src/graph/chatbot_graph.py:107-141 | one run leaves history exactly [query, answer], token usage zero, and the router's intent and confidence |

The following members define the operations the rows above are about. Their own contracts, where they have any, only bound a length or spell out the definition, so they have no row of their own; each entry names the source lines it models and the rows that state what it means.

- `Strings.Lower` (intent_router.py:145): `Router.CleanText`, `Router.CleanTextKeepsWords`, `Sentiment.HasAngerExactly`.
- `Router.RemovePlaceholders` (intent_router.py:142): `Router.RemovePlaceholdersWithoutOpening`, `Router.RemovePlaceholdersLeading`, `Router.RemovePlaceholdersKeepsPrefix`, `Router.RemovePlaceholdersBlockAfter`, `Router.NoPlaceholderLeft`, `Router.ClosesSurvive`.
- `Router.Zip` (intent_router.py:193-196) and `Router.TopThree` (intent_router.py:199): `Router.PredictIntent`, `Router.TopEntries`, `Router.TopThreeStable`, `Router.SortDescending`.
- `Router.Entry`, `Router.AddIntents`, `Router.AddBuckets` and `Router.IntentMapping` (intent_router.py:116-128): `Router.AddIntentsLookup`, `Router.IntentMappingLookup`, `Router.BuildIntentMapping`, `Router.ListedIntentRoutesToItsBucket`.
- `Router.ThresholdFor` (intent_router.py:38-61): `Router.IntentRouter.constructor`.
- `Retrieval.KeptHits` (src/retriever.py:117-124): `Retrieval.KeptHitsAppend`, `Retrieval.KeptHitsComeFromMetadata`, `Retrieval.KeptHitsAllInRange`, `Retrieval.CollectResults`.
- `Retrieval.ContextBlock` and `Retrieval.Blocks` (src/retriever.py:141-152): `Retrieval.FormatContext`, `Retrieval.FormatContextAppend`, `Strings.ParseNatToString`.
- `Retrieval.EffectiveTopK` (src/retriever.py:93-126): `Retrieval.RagRetriever.Retrieve`.
- `State.Initial` (src/graph/chatbot_graph.py:122-134): `State.ChatbotState.constructor`, `Graph.ProcessFacts`.
- `Sentiment.AnyKeywordIn` (src/nodes/intent_node.py:59) and `Sentiment.HasAnger` (src/nodes/intent_node.py:57-59): `Sentiment.AnyKeywordInExactly`, `Sentiment.HasAngerExactly`, `Sentiment.KeywordInside`.
- `Sentiment.IntentNode.AnalyzeSentiment` (src/nodes/intent_node.py:52-65), `Sentiment.ShouldEscalate` (src/nodes/intent_node.py:88-94) and `Sentiment.IntentNode.Step` (src/nodes/intent_node.py:67-127): `Sentiment.StepFacts`, `Sentiment.IntentNode.Call`.
- `Sentiment.EscalatedBySentiment` (api.py:162): `Sentiment.EscalatedBySentimentExactly`.
- `ResponseCleaning.RemoveTagged` (src/nodes/generate_node.py:41-46): `ResponseCleaning.RemoveTaggedWithoutOpening`, `ResponseCleaning.RemoveTaggedUnclosed`, `ResponseCleaning.RemoveTaggedLeadingBlock`, `ResponseCleaning.RemoveTaggedKeepsPrefix`, `ResponseCleaning.RemoveTaggedBlockAfter`.
- `ResponseCleaning.CollapseBlankLines` (src/nodes/generate_node.py:49): the `ResponseCleaning.Collapse…` rows and `ResponseCleaning.CleanResponse`.
- `Generation.BucketAResponse` (src/nodes/generate_node.py:54-69), `Generation.BucketBResponse` (src/nodes/generate_node.py:71-98), `Generation.BucketCResponse` (src/nodes/generate_node.py:100-127) and `Generation.ResponseFor` (src/nodes/generate_node.py:139-154): `Generation.ResponseByBucket`, `Generation.ResponseReadsFourKeys`, `Generation.ResponseNonEmptyOutsideRag`.
- `Generation.GenerateNode.Step` (src/nodes/generate_node.py:129-168): `Generation.GenerateStepFacts`, `Generation.GenerateNode.Call`.
- `Graph.RetrieveNode.Step` (src/graph/chatbot_graph.py:84): `Graph.RetrieveStepFacts`, `Graph.RetrieveNode.Call`.
- `Graph.AfterBranch` (src/graph/chatbot_graph.py:47-68): `Graph.BranchFacts`, `Graph.BranchIdempotent`, `Graph.CustomerSupportGraph.ShouldRetrieve`.
- `Graph.CustomerSupportGraph.Finish` (src/graph/chatbot_graph.py:91-102): `Graph.CustomerSupportGraph.RunFromBranch`, `Graph.FinishFacts`, `Graph.MissingTemplateFallsBackToRag`.
- `Graph.CustomerSupportGraph.FinishLabelOnly` (src/graph/chatbot_graph.py:55-56): `Graph.MissingTemplateAnswersDefaultAsWritten` (see Findings).
- `Graph.CustomerSupportGraph.Pipeline` (src/graph/chatbot_graph.py:107-141): `Graph.CustomerSupportGraph.Process`, `Graph.RetrievesExactlyForBucketB`, `Graph.BucketAAnswersWithTemplate`, `Graph.ProcessFacts`.

## Left out

- The learned components are parameters of the model: the TF-IDF vectoriser, the logistic-regression model, the DistilBERT sentiment pipeline, the sentence encoder, the FAISS index and the LLM factory. The model includes no file loading, no `FileNotFoundError` on missing artefacts, no lazy loading of the sentiment pipeline and no printing.
- The `AttributeError` fallback of `predict_intent` (intent_router.py:173-188) is left out. It depends on the scikit-learn version; the model assumes `predict_proba` works.
- `batch_route` and `get_stats` (intent_router.py:309-321) are left out. They are convenience wrappers outside the request path.
- `faiss.normalize_L2` is folded into the `search` capability. Floating-point vectors are not modelled.
- The retrieval node (`src/nodes/retrieve_node.py`) is not part of this model. `Graph.RetrieveNode` writes the two retrieval keys through an opaque `fetch`.
- `get_escalation_prompt` and the escalation system prompt are modelled (`Prompts.EscalationPrompt`) but no node uses them. BUCKET_C answers with fixed messages.
- `Sentiment.HasAnger`: the three calm test queries (test_sentiment_routing.py:31-41) are not proved free of anger keywords. The proof of absence over 28 keywords is too costly; only the angry cases are proved.
- `Strings.Lower`, `Strings.IsSpace`: `str.lower()` and `\s` / `str.isspace()` cover ASCII only. Unicode case mapping and Unicode whitespace are not modelled.
- `ResponseCleaning.RemoveTagged`: one left-to-right pass of the lazy regex. The contracts do not claim that no tagged block remains: a block spliced across a removed one (`<thi<think>x</think>nk>y</think>`) survives the single `re.sub` pass in the source too.
- Messages are modelled as a value history, so `Generation.GenerateNode.Call` does not model the branch that creates a missing `messages` key (src/nodes/generate_node.py:160-161). `process` always provides the key.
- The three sentiment keys are absent from the initial dictionary (src/graph/chatbot_graph.py:122-134). `State.Initial` gives them neutral values, which the intent node always overwrites.
- `llm_usage` is not in the `ChatbotState` schema of state.py but is put in by `process`. The model keeps it as a field. Token usage returned by the model is not modelled because the code discards it.
- `Router.IntentRouter`: the intent table is built by `Router.BuildIntentMapping` and stored in the constructor. In the source it is filled in place during construction. No method changes it afterwards, so it is a `const` field.
- The `reason` texts of a routing decision (intent_router.py:228, 240, 248-252) are kept as a datatype naming the case and its argument. The `{confidence:.2%}` percentage formatting of floats is not modelled.
- Graph.CustomerSupportGraph.ShouldRetrieve: the model keeps the branch's two writes (bucket BUCKET_B, cost tier "low"), which is what the code evidently intends. Whether LangGraph keeps writes made inside a conditional-edge function depends on the runtime, which is not modelled; `Graph.CustomerSupportGraph.FinishLabelOnly` gives the run without them (see Findings).
- ResponseCleaning.RemoveInternalTags: its own contract states only the length bound. What each pass removes and keeps is stated by `RemoveTaggedWithoutOpening`, `RemoveTaggedUnclosed` (an opening tag with no closing tag after it stays), `RemoveTaggedLeadingBlock`, `RemoveTaggedKeepsPrefix` and `RemoveTaggedBlockAfter`, and on the whole reply by `CleanResponseWithoutTags`.
- LangGraph's `invoke` is modelled as the fixed sequence of node calls that the built workflow prescribes. `Graph.Walk` checks that sequence against the edges. Concurrency and the LangGraph runtime are not modelled.
- The API and the Streamlit front end are left out, except the `escalated_by_sentiment` flag of api.py:162 (`Sentiment.EscalatedBySentiment`).

## Findings

| source | as written | input that shows it | evidently intended | confidence | as-written member | corrected member |
|---|---|---|---|---|---|---|
| src/retriever.py:119 | the filter keeps a hit when `idx < len(metadata)`, so FAISS's padding position -1 passes and Python reads `metadata[-1]` | two metadata entries, hits `[(1, 0.75), (-1, -1.0)]` (fewer results than k): the last entry is returned twice, once with score -1.0 | keep only `0 <= idx < len(metadata)` | not executed | Retrieval.PaddingHitDuplicatesLastEntry | Retrieval.CollectResults |
| src/graph/chatbot_graph.py:55-56 | `_should_retrieve` is a conditional-edge function and writes `bucket` and `cost_tier` into the state it is handed. LangGraph hands such a function a fresh read of the state and keeps only the label it returns, so the writes are lost | a BUCKET_A request whose intent has no template: the branch answers "retrieve", retrieval runs, but generation still sees BUCKET_A and answers with the default BUCKET_A text, ignoring the documents | the request continues as BUCKET_B at cost tier "low" and is answered by the model from the retrieved context | not executed; depends on LangGraph's handling of writes in a branch function, which is outside this model | Graph.MissingTemplateAnswersDefaultAsWritten | Graph.MissingTemplateFallsBackToRag |
