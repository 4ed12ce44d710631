/** The agent graph the server builds per chat request (backend/app/graph.py):
    which model name the LLM client gets, how the router picks the next node,
    and how the two nodes are wired. The LLM, the search tool and LangGraph's
    runtime are not part of this model. */
module Graph {
  import opened Base
  import opened Text
  import opened Protocol

  const DefaultModel := "gpt-3.5-turbo"

  /** Python truthiness of an `Optional[str]`: `None` and `""` are false. */
  predicate Truthy(o: Option<string>)
  {
    o.Some? && o.value != ""
  }

  /** The model name the LLM client is built with: an explicit model wins;
      otherwise the first provider hint found in the base URL, in the order
      deepseek, moonshot, dashscope/aliyuncs; otherwise the default. */
  function InferModelName(model: Option<string>, baseUrl: Option<string>): (r: string)
    ensures Truthy(model) ==> r == model.value
    ensures !Truthy(model) ==> r in {DefaultModel, "deepseek-chat", "moonshot-v1-8k", "qwen-plus"}
    ensures !Truthy(model) && !Truthy(baseUrl) ==> r == DefaultModel
  {
    if Truthy(model) then model.value
    else if !Truthy(baseUrl) then DefaultModel
    else if Contains(baseUrl.value, "deepseek") then "deepseek-chat"
    else if Contains(baseUrl.value, "moonshot") then "moonshot-v1-8k"
    else if Contains(baseUrl.value, "dashscope") || Contains(baseUrl.value, "aliyuncs") then "qwen-plus"
    else DefaultModel
  }

  /** The hints are tried in order and the first one found decides, whatever
      else the URL contains. */
  lemma HintPrecedence(baseUrl: string)
    requires baseUrl != ""
    ensures Contains(baseUrl, "deepseek") ==> InferModelName(None, Some(baseUrl)) == "deepseek-chat"
    ensures !Contains(baseUrl, "deepseek") && Contains(baseUrl, "moonshot") ==>
      InferModelName(None, Some(baseUrl)) == "moonshot-v1-8k"
    ensures !Contains(baseUrl, "deepseek") && !Contains(baseUrl, "moonshot") ==>
      (InferModelName(None, Some(baseUrl)) == "qwen-plus" <==>
       Contains(baseUrl, "dashscope") || Contains(baseUrl, "aliyuncs"))
    ensures InferModelName(None, Some(baseUrl)) == DefaultModel <==>
      !Contains(baseUrl, "deepseek") && !Contains(baseUrl, "moonshot") &&
      !Contains(baseUrl, "dashscope") && !Contains(baseUrl, "aliyuncs")
  {
  }

  /** `model=""` is treated exactly like a missing model. */
  lemma EmptyModelIsMissing(baseUrl: Option<string>)
    ensures InferModelName(Some(""), baseUrl) == InferModelName(None, baseUrl)
  {
  }

  /** The OpenAI URL cut after its scheme's first slash. */
  lemma OpenAiUrlParts()
    ensures BaseUrl(OpenAI) == "https:/" + "/api.openai.com/v1"
  {
  }

  /** The OpenAI URL has no 'd', so neither "deepseek" nor "dashscope". */
  lemma OpenAiUrlLacksD()
    ensures !Contains(BaseUrl(OpenAI), "deepseek") && !Contains(BaseUrl(OpenAI), "dashscope")
  {
    OpenAiUrlParts();
    assert 'd' !in "https:/" && 'd' !in "/api.openai.com/v1";
    NotContainsByChar(BaseUrl(OpenAI), "deepseek", 0);
    NotContainsByChar(BaseUrl(OpenAI), "dashscope", 0);
  }

  /** The OpenAI URL has no 'y', so no "aliyuncs". */
  lemma OpenAiUrlLacksY()
    ensures !Contains(BaseUrl(OpenAI), "aliyuncs")
  {
    OpenAiUrlParts();
    assert 'y' !in "https:/" && 'y' !in "/api.openai.com/v1";
    NotContainsByChar(BaseUrl(OpenAI), "aliyuncs", 3);
  }

  /** The OpenAI URL has no 't' after its scheme, where the 't' of any
      "moonshot" would have to be. */
  lemma OpenAiUrlLacksMoonshot()
    ensures !Contains(BaseUrl(OpenAI), "moonshot")
  {
    OpenAiUrlParts();
    var u, rest := BaseUrl(OpenAI), "/api.openai.com/v1";
    assert u[7..25] == rest;
    assert 't' !in rest;
    NotContainsByWindow(u, "moonshot", 7);
  }

  /** The OpenAI URL holds none of the hints. */
  lemma OpenAiUrlHasNoHint()
    ensures InferModelName(None, Some(BaseUrl(OpenAI))) == DefaultModel
  {
    OpenAiUrlLacksD();
    OpenAiUrlLacksY();
    OpenAiUrlLacksMoonshot();
  }

  /** The Moonshot URL holds "moonshot" but not "deepseek". */
  lemma MoonshotUrlHint()
    ensures InferModelName(None, Some(BaseUrl(Moonshot))) == "moonshot-v1-8k"
  {
    var u := BaseUrl(Moonshot);
    NotContainsByChar(u, "deepseek", 0);
    assert u == "https://api." + "moonshot" + ".cn/v1";
    ContainsAt(u, "moonshot", 12);
  }

  /** The Aliyun URL cut where the proofs below need it. */
  lemma AliyunUrlParts()
    ensures BaseUrl(Aliyun) == "https://" + "dashscope" + ".aliyu" + "n" + "cs.com" + "/compatible-mode/v1"
  {
  }

  /** The Aliyun URL has no 'k', so no "deepseek". */
  lemma AliyunUrlLacksDeepseek()
    ensures !Contains(BaseUrl(Aliyun), "deepseek")
  {
    AliyunUrlParts();
    assert 'k' !in "https://" && 'k' !in "dashscope" && 'k' !in ".aliyu" && 'k' !in "cs.com" && 'k' !in "/compatible-mode/v1";
    NotContainsByChar(BaseUrl(Aliyun), "deepseek", 7);
  }

  /** The Aliyun URL's only 'n' follows a 'u', not the 'o' of "moonshot". */
  lemma AliyunUrlLacksMoonshot()
    ensures !Contains(BaseUrl(Aliyun), "moonshot")
  {
    AliyunUrlParts();
    var pre, post := "https://" + "dashscope" + ".aliyu", "cs.com" + "/compatible-mode/v1";
    assert BaseUrl(Aliyun) == pre + ['n'] + post;
    assert 'n' !in "https://" && 'n' !in "dashscope" && 'n' !in ".aliyu" && 'n' !in "cs.com" && 'n' !in "/compatible-mode/v1";
    assert pre[|pre| - 1] == 'u';
    NotContainsByUniqueChar(BaseUrl(Aliyun), "moonshot", 3, pre, post);
  }

  /** The Aliyun URL holds "dashscope" and neither earlier hint. */
  lemma AliyunUrlHint()
    ensures InferModelName(None, Some(BaseUrl(Aliyun))) == "qwen-plus"
  {
    AliyunUrlLacksDeepseek();
    AliyunUrlLacksMoonshot();
    AliyunUrlParts();
    var rest := ".aliyu" + "n" + "cs.com" + "/compatible-mode/v1";
    assert BaseUrl(Aliyun) == "https://" + "dashscope" + rest;
    ContainsAt(BaseUrl(Aliyun), "dashscope", 8);
  }

  /** For each of the client's providers, a request carrying only the base URL
      resolves to the model the client pairs with that URL. */
  lemma {:induction false} InferenceMatchesProviderTable(p: Provider)
    ensures InferModelName(None, Some(BaseUrl(p))) == ModelFor(p)
  {
    match p
    case OpenAI => OpenAiUrlHasNoHint();
    case DeepSeek => ContainsAt(BaseUrl(DeepSeek), "deepseek", 12);
    case Moonshot => MoonshotUrlHint();
    case Aliyun => AliyunUrlHint();
  }

  /** What the client sends: the paired URL and model, so the model is used
      as given. */
  lemma ClientRequestsUseTableModel(p: Provider)
    ensures InferModelName(Some(ModelFor(p)), Some(BaseUrl(p))) == ModelFor(p)
  {
  }

  /** The parts of a LangChain message the router looks at. */
  datatype AgentMessage = AgentMessage(content: string, toolCalls: seq<string>)

  const ChatbotNode := "chatbot"
  const ToolsNode := "tools"
  const EndNode := "__end__"

  /** `router(state)`: go to the tool node when the last message asks for
      tool calls, else finish. `messages[-1]` on an empty list raises. */
  function Router(messages: seq<AgentMessage>): (r: Result<string>)
    ensures r.Ok? <==> messages != []
    ensures r.Ok? ==> (r.value == ToolsNode <==> messages[|messages| - 1].toolCalls != [])
    ensures r.Ok? ==> r.value in {ToolsNode, EndNode}
  {
    if messages == [] then Err("list index out of range")
    else if messages[|messages| - 1].toolCalls != [] then Ok(ToolsNode)
    else Ok(EndNode)
  }

  /** The graph as data: its nodes, the entry point, the nodes whose outgoing
      edge is chosen by the router, and the fixed edges. */
  datatype Workflow = Workflow(
    nodes: seq<string>,
    entry: Option<string>,
    routed: seq<string>,
    edges: seq<(string, string)>)

  function AddNode(w: Workflow, name: string): Workflow
  {
    w.(nodes := w.nodes + [name])
  }

  function SetEntryPoint(w: Workflow, name: string): Workflow
  {
    w.(entry := Some(name))
  }

  function AddConditionalEdges(w: Workflow, source: string): Workflow
  {
    w.(routed := w.routed + [source])
  }

  function AddEdge(w: Workflow, source: string, target: string): Workflow
  {
    w.(edges := w.edges + [(source, target)])
  }

  /** Where execution goes after `node` has run on `state`: the router's
      choice for a routed node, else the first fixed edge out of it. */
  function Step(w: Workflow, node: string, state: seq<AgentMessage>): Result<string>
  {
    if node in w.routed then Router(state)
    else NextByEdge(w.edges, node)
  }

  function NextByEdge(edges: seq<(string, string)>, node: string): Result<string>
  {
    if edges == [] then Err("no edge out of " + node)
    else if edges[0].0 == node then Ok(edges[0].1)
    else NextByEdge(edges[1..], node)
  }

  /** The settings the LLM client is constructed with. */
  datatype LlmSettings = LlmSettings(
    model: string, temperature: int, apiKey: string, baseUrl: Option<string>, streaming: bool)

  /** The settings of the web-search tool. */
  datatype SearchSettings = SearchSettings(
    maxResults: nat, searchDepth: string, includeAnswer: bool, includeRawContent: bool)

  datatype Engine = Engine(llm: LlmSettings, search: SearchSettings, workflow: Workflow)

  /** The two-node loop: chatbot is the entry, the router decides what follows
      chatbot, and tools always hands back to chatbot. */
  ghost predicate AgentLoop(w: Workflow)
  {
    && w.entry == Some(ChatbotNode)
    && ChatbotNode in w.nodes && ToolsNode in w.nodes
    && (forall s :: Step(w, ChatbotNode, s) == Router(s))
    && (forall s :: Step(w, ToolsNode, s) == Ok(ChatbotNode))
  }

  /** The workflow `get_graph_engine` wires up. */
  function AgentGraph(): Workflow
  {
    Workflow([ChatbotNode, ToolsNode], Some(ChatbotNode), [ChatbotNode], [(ToolsNode, ChatbotNode)])
  }

  lemma AgentGraphIsLoop()
    ensures AgentLoop(AgentGraph())
  {
    var w := AgentGraph();
    assert ToolsNode != ChatbotNode;
    assert ToolsNode !in w.routed;
    forall s ensures Step(w, ToolsNode, s) == Ok(ChatbotNode) {
      assert NextByEdge(w.edges, ToolsNode) == Ok(ChatbotNode);
    }
  }

  /** `get_graph_engine`: the search key goes into the process environment
      (returned here as the new environment), the model name is inferred, and
      the workflow is built by the same sequence of calls as the source. */
  method GetGraphEngine(env: map<string, string>, openaiApiKey: string, tavilyApiKey: string,
                        baseUrl: Option<string>, model: Option<string>)
    returns (env': map<string, string>, engine: Engine)
    ensures env' == env["TAVILY_API_KEY" := tavilyApiKey]
    ensures engine.llm == LlmSettings(InferModelName(model, baseUrl), 0, openaiApiKey, baseUrl, true)
    ensures engine.search == SearchSettings(5, "advanced", true, true)
    ensures AgentLoop(engine.workflow)
    ensures engine.workflow.nodes == [ChatbotNode, ToolsNode]
  {
    env' := env["TAVILY_API_KEY" := tavilyApiKey];
    var search := SearchSettings(5, "advanced", true, true);

    var llm := LlmSettings(InferModelName(model, baseUrl), 0, openaiApiKey, baseUrl, true);

    var workflow := Workflow([], None, [], []);
    workflow := AddNode(workflow, ChatbotNode);
    workflow := AddNode(workflow, ToolsNode);
    workflow := SetEntryPoint(workflow, ChatbotNode);
    workflow := AddConditionalEdges(workflow, ChatbotNode);
    workflow := AddEdge(workflow, ToolsNode, ChatbotNode);
    assert workflow == AgentGraph();
    AgentGraphIsLoop();
    engine := Engine(llm, search, workflow);
  }
}
