/**
  The orchestrator (src/graph/chatbot_graph.py): the workflow of three
  nodes, the branch after intent classification, and one run of the graph
  over a fresh request.

  RetrieveNode (src/nodes/retrieve_node.py) is not part of this model: it is
  the capability `fetch`, from the request to the documents and the context
  text it stores, and the node writes only those two keys.
*/
module Graph {
  import opened Wrappers
  import opened Prompts
  import opened Router
  import opened Retrieval
  import opened State
  import opened Sentiment
  import opened Generation

  // ---------------------------------------------------------------------------
  // The workflow of `_build_graph`
  // ---------------------------------------------------------------------------

  const IntentName: string := "intent"
  const RetrieveName: string := "retrieve"
  const GenerateName: string := "generate"
  /** LangGraph's END marker. */
  const End: string := "__end__"

  /** The cost tier the branch writes when it turns BUCKET_A into BUCKET_B. */
  const FallbackCostTier: string := "low"

  /**
    A compiled workflow: its entry node, the node with the conditional edge
    and the map from branch labels to nodes, and the plain edges.
  */
  datatype Workflow = Workflow(
    entry: string,
    branchFrom: string,
    branchTargets: map<string, string>,
    edges: map<string, string>)

  /** `_build_graph`: intent first, a conditional edge out of it, retrieve to generate, generate to END. */
  function BuildGraph(): (w: Workflow)
    ensures w.entry == IntentName && w.branchFrom == IntentName
    ensures w.branchTargets.Keys == {RetrieveName, GenerateName}
    ensures w.edges.Keys == {RetrieveName, GenerateName}
  {
    Workflow(IntentName, IntentName,
      map[RetrieveName := RetrieveName, GenerateName := GenerateName],
      map[RetrieveName := GenerateName, GenerateName := End])
  }

  /** The node after `node` when the branch function answered `choice`; none for a dangling node or choice. */
  function Next(w: Workflow, node: string, choice: string): Option<string>
  {
    if node == w.branchFrom then
      if choice in w.branchTargets then Some(w.branchTargets[choice]) else None
    else if node in w.edges then Some(w.edges[node])
    else None
  }

  /** The nodes run from `node` until END, taking at most `steps` nodes. */
  function Walk(w: Workflow, node: string, choice: string, steps: nat): seq<string>
    decreases steps
  {
    if node == End || steps == 0 then []
    else
      match Next(w, node, choice)
      case None => [node]
      case Some(n) => [node] + Walk(w, n, choice, steps - 1)
  }

  /**
    The run of the built graph: intent first, retrieve at most once and only
    right before generate, generate last; retrieve is on the path exactly for
    the choice "retrieve". Three steps reach END.
  */
  lemma WalkOrder(choice: string)
    requires choice == RetrieveName || choice == GenerateName
    ensures var w := BuildGraph();
      Walk(w, w.entry, choice, 3) ==
        (if choice == RetrieveName then [IntentName, RetrieveName, GenerateName] else [IntentName, GenerateName])
    ensures var w := BuildGraph();
      choice == RetrieveName ==> Next(w, GenerateName, choice) == Some(End)
  {
    var w := BuildGraph();
    assert Next(w, GenerateName, choice) == Some(End);
    assert Walk(w, GenerateName, choice, 1) == [GenerateName] by {
      assert Walk(w, End, choice, 0) == [];
    }
    if choice == RetrieveName {
      assert Next(w, RetrieveName, choice) == Some(GenerateName);
      assert Walk(w, RetrieveName, choice, 2) == [RetrieveName, GenerateName] by {
        assert Walk(w, GenerateName, choice, 1) == [GenerateName] by {
          assert Walk(w, End, choice, 0) == [];
        }
      }
    }
  }

  // ---------------------------------------------------------------------------
  // The branch `_should_retrieve`
  // ---------------------------------------------------------------------------

  /** A BUCKET_A request whose intent has no template falls back to RAG. */
  predicate MissingTemplate(v: StateValue) {
    v.bucket == BucketA && !HasDirectResponse(v.predictedIntent)
  }

  /** The choice `_should_retrieve` answers for the request. */
  function BranchLabel(v: StateValue): (choice: string)
    ensures choice == RetrieveName <==> v.bucket == BucketB || MissingTemplate(v)
    ensures choice == RetrieveName || choice == GenerateName
  {
    if v.bucket == BucketA then
      if !HasDirectResponse(v.predictedIntent) then RetrieveName else GenerateName
    else if v.bucket == BucketB then RetrieveName
    else GenerateName
  }

  /** The request after `_should_retrieve`: only the missing-template case writes, two keys. */
  function AfterBranch(v: StateValue): StateValue {
    if MissingTemplate(v) then v.(bucket := BucketB, costTier := FallbackCostTier) else v
  }

  /**
    What the branch guarantees: it answers "retrieve" only for a request that
    is then in BUCKET_B; the missing-template case moves to BUCKET_B at cost
    tier "low" and touches nothing else (the action stays); every other case
    leaves the request as it was; BUCKET_C and unknown buckets go straight
    to generate.
  */
  lemma BranchFacts(v: StateValue)
    ensures BranchLabel(v) == RetrieveName ==> AfterBranch(v).bucket == BucketB
    ensures MissingTemplate(v) ==>
      AfterBranch(v) == v.(bucket := BucketB, costTier := FallbackCostTier) && AfterBranch(v).action == v.action
    ensures !MissingTemplate(v) ==> AfterBranch(v) == v
    ensures v.bucket != BucketA && v.bucket != BucketB ==> BranchLabel(v) == GenerateName
    ensures AfterBranch(v).bucket == BucketA ==> HasDirectResponse(AfterBranch(v).predictedIntent)
  {
  }

  /** The branch again on the request it produced changes nothing and answers the same. */
  lemma BranchIdempotent(v: StateValue)
    ensures AfterBranch(AfterBranch(v)) == AfterBranch(v)
    ensures BranchLabel(AfterBranch(v)) == BranchLabel(v)
  {
  }

  // ---------------------------------------------------------------------------
  // The retrieval node
  // ---------------------------------------------------------------------------

  class RetrieveNode {
    /** The retriever behind the node: documents and the formatted context for the request. */
    const fetch: StateValue -> (seq<RetrievedDocument>, string)

    constructor (fetch: StateValue -> (seq<RetrievedDocument>, string))
      ensures this.fetch == fetch
    {
      this.fetch := fetch;
    }

    /** The request after retrieval: the two retrieval keys written, nothing else. */
    function Step(v: StateValue): (w: StateValue)
    {
      v.(retrievedDocuments := fetch(v).0, retrievedContext := fetch(v).1)
    }

    method Call(state: ChatbotState)
      modifies state
      ensures state.value == old(Step(state.value))
    {
      var found := fetch(state.value);
      state.value := state.value.(retrievedDocuments := found.0, retrievedContext := found.1);
    }
  }

  /** Retrieval writes the documents and the context and leaves every other key alone. */
  lemma RetrieveStepFacts(node: RetrieveNode, v: StateValue)
    ensures var w := node.Step(v);
      (w.retrievedDocuments, w.retrievedContext) == node.fetch(v)
      && w.(retrievedDocuments := v.retrievedDocuments, retrievedContext := v.retrievedContext) == v
  {
  }

  // ---------------------------------------------------------------------------
  // The graph
  // ---------------------------------------------------------------------------

  class CustomerSupportGraph {
    const intentNode: IntentNode
    const retrieveNode: RetrieveNode
    const generateNode: GenerateNode

    constructor (intentNode: IntentNode, retrieveNode: RetrieveNode, generateNode: GenerateNode)
      ensures this.intentNode == intentNode && this.retrieveNode == retrieveNode
      ensures this.generateNode == generateNode
    {
      this.intentNode := intentNode;
      this.retrieveNode := retrieveNode;
      this.generateNode := generateNode;
    }

    /** `_should_retrieve`: answers the choice and, for a missing template, rewrites bucket and cost tier. */
    method ShouldRetrieve(state: ChatbotState) returns (choice: string)
      modifies state
      ensures choice == BranchLabel(old(state.value))
      ensures state.value == AfterBranch(old(state.value))
    {
      var bucket := state.value.bucket;
      if bucket == BucketA {
        var intent := state.value.predictedIntent;
        if !HasDirectResponse(intent) {
          state.value := state.value.(bucket := BucketB);
          state.value := state.value.(costTier := FallbackCostTier);
          return RetrieveName;
        } else {
          return GenerateName;
        }
      }
      if bucket == BucketB {
        return RetrieveName;
      } else {
        return GenerateName;
      }
    }

    /**
      The request at END from the request the intent node produced: the
      branch, retrieval on the "retrieve" answer, then generation.
    */
    function Finish(classified: StateValue): StateValue
    {
      var routed := AfterBranch(classified);
      generateNode.Step(if BranchLabel(classified) == RetrieveName then retrieveNode.Step(routed) else routed)
    }

    /**
      The request at END when the branch's writes are lost: a graph runtime
      that hands the branch function a copy of the request keeps only the
      label it answers, so retrieval and generation see the request the
      intent node left.
    */
    function FinishLabelOnly(classified: StateValue): StateValue
    {
      generateNode.Step(if BranchLabel(classified) == RetrieveName then retrieveNode.Step(classified) else classified)
    }

    /** The request at END for a request entering the graph. */
    function Pipeline(v: StateValue): StateValue
      requires intentNode.router.Classifiable(CleanText(v.userQuery))
    {
      Finish(intentNode.Step(v))
    }

    /**
      The run after the intent node: the conditional edge, retrieve when it
      answers "retrieve", then generate; reports the nodes run from the entry.
    */
    method RunFromBranch(state: ChatbotState) returns (visited: seq<string>)
      modifies state
      ensures state.value == old(Finish(state.value))
      ensures visited == Walk(BuildGraph(), IntentName, old(BranchLabel(state.value)), 3)
    {
      var choice := ShouldRetrieve(state);
      WalkOrder(choice);
      if choice == RetrieveName {
        retrieveNode.Call(state);
        visited := [IntentName, RetrieveName, GenerateName];
      } else {
        visited := [IntentName, GenerateName];
      }
      generateNode.Call(state);
    }

    /**
      `process`: a fresh request for the query, then the nodes in the order
      the workflow's edges give, reporting the nodes it ran.
    */
    method Process(userQuery: string) returns (final: StateValue, visited: seq<string>)
      requires intentNode.router.Classifiable(CleanText(userQuery))
      ensures final == Pipeline(Initial(userQuery))
      ensures visited == Walk(BuildGraph(), IntentName, BranchLabel(intentNode.Step(Initial(userQuery))), 3)
    {
      var state := new ChatbotState(userQuery);
      intentNode.Call(state);
      visited := RunFromBranch(state);
      final := state.value;
    }

    /** `get_response`: the final answer of one run. */
    method GetResponse(userQuery: string) returns (response: string)
      requires intentNode.router.Classifiable(CleanText(userQuery))
      ensures response == Pipeline(Initial(userQuery)).finalResponse
    {
      var final, _ := Process(userQuery);
      response := final.finalResponse;
    }
  }

  /**
    Retrieval runs exactly for the requests that end in BUCKET_B: those the
    router sent there and the BUCKET_A requests without a template.
  */
  lemma RetrievesExactlyForBucketB(g: CustomerSupportGraph, classified: StateValue)
    ensures BranchLabel(classified) == RetrieveName <==> g.Finish(classified).bucket == BucketB
  {
    var routed := AfterBranch(classified);
    var fetched := if BranchLabel(classified) == RetrieveName then g.retrieveNode.Step(routed) else routed;
    GenerateStepFacts(g.generateNode, fetched);
  }

  /**
    A request that is still in BUCKET_A at generation has a template, and its
    answer is that template, never the fallback text.
  */
  lemma BucketAAnswersWithTemplate(g: CustomerSupportGraph, classified: StateValue)
    requires g.Finish(classified).bucket == BucketA
    ensures HasDirectResponse(classified.predictedIntent)
    ensures g.Finish(classified).finalResponse == DirectResponseTemplates[classified.predictedIntent]
  {
    var routed := AfterBranch(classified);
    GenerateStepFacts(g.generateNode, routed);
  }

  /**
    With the branch's writes lost, a BUCKET_A request without a template is
    retrieved for, but still reaches generation in BUCKET_A and is answered
    with the fallback text; the documents fetched go unused.
  */
  lemma MissingTemplateAnswersDefaultAsWritten(g: CustomerSupportGraph, classified: StateValue)
    requires MissingTemplate(classified)
    ensures BranchLabel(classified) == RetrieveName
    ensures g.FinishLabelOnly(classified).bucket == BucketA
    ensures g.FinishLabelOnly(classified).finalResponse == DefaultDirectResponse
  {
    var fetched := g.retrieveNode.Step(classified);
    GenerateStepFacts(g.generateNode, fetched);
    ResponseByBucket(fetched, g.generateNode.llm);
  }

  /**
    With the branch's writes kept, a BUCKET_A request without a template ends
    in BUCKET_B at cost tier "low", answered by the model from the retrieved
    context.
  */
  lemma MissingTemplateFallsBackToRag(g: CustomerSupportGraph, classified: StateValue)
    requires MissingTemplate(classified)
    ensures var f := g.Finish(classified);
      && f.bucket == BucketB && f.costTier == FallbackCostTier
      && f.finalResponse == BucketBResponse(g.retrieveNode.Step(AfterBranch(classified)), g.generateNode.llm)
  {
    var fetched := g.retrieveNode.Step(AfterBranch(classified));
    GenerateStepFacts(g.generateNode, fetched);
    ResponseByBucket(fetched, g.generateNode.llm);
  }

  /**
    After the branch, retrieval and generation: query, intent, confidence,
    action, sentiment and token usage are those the intent node left; the
    history has grown by the query and the answer; without retrieval the
    retrieval keys are untouched.
  */
  lemma FinishFacts(g: CustomerSupportGraph, classified: StateValue)
    ensures var f := g.Finish(classified);
      && f.userQuery == classified.userQuery
      && f.predictedIntent == classified.predictedIntent && f.confidence == classified.confidence
      && f.action == classified.action
      && f.sentimentLabel == classified.sentimentLabel && f.sentimentScore == classified.sentimentScore
      && f.hasAngerKeywords == classified.hasAngerKeywords
      && f.llmUsage == classified.llmUsage
      && f.messages == classified.messages + [Human(classified.userQuery), Ai(f.finalResponse)]
    ensures BranchLabel(classified) == GenerateName ==>
      g.Finish(classified).retrievedDocuments == classified.retrievedDocuments
      && g.Finish(classified).retrievedContext == classified.retrievedContext
  {
    var routed := AfterBranch(classified);
    var fetched := if BranchLabel(classified) == RetrieveName then g.retrieveNode.Step(routed) else routed;
    GenerateStepFacts(g.generateNode, fetched);
  }

  /**
    One run from the initial request: the history is exactly the query and
    the answer, the token usage stays zero, and intent and confidence are the
    router's for the query.
  */
  lemma ProcessFacts(g: CustomerSupportGraph, userQuery: string)
    requires g.intentNode.router.Classifiable(CleanText(userQuery))
    ensures var f := g.Pipeline(Initial(userQuery));
      var routed := g.intentNode.router.RouteMessage(userQuery);
      && f.userQuery == userQuery
      && f.messages == [Human(userQuery), Ai(f.finalResponse)]
      && f.llmUsage == NoUsage
      && f.predictedIntent == routed.predictedIntent && f.confidence == routed.confidence
  {
    var v := Initial(userQuery);
    StepFacts(g.intentNode, v);
    FinishFacts(g, g.intentNode.Step(v));
  }
}
