/** The records the browser client and the server exchange, and the client's
    fixed provider registry (frontend-new/src/App.jsx, backend/app/schema.py). */
module Protocol {
  import opened Base

  /** One chat turn as the client stores it: `{role, content}`. */
  datatype Message = Message(role: string, content: string)

  /** A message as a JSON object, which is how it reaches the server. */
  function ToDict(m: Message): (d: map<string, string>)
    ensures d.Keys == {"role", "content"}
    ensures d["role"] == m.role && d["content"] == m.content
  {
    map["role" := m.role, "content" := m.content]
  }

  function ToDicts(ms: seq<Message>): (ds: seq<map<string, string>>)
    ensures |ds| == |ms|
    ensures forall i :: 0 <= i < |ms| ==> ds[i] == ToDict(ms[i])
  {
    seq(|ms|, i requires 0 <= i < |ms| => ToDict(ms[i]))
  }

  /** The four providers the settings menu offers. */
  datatype Provider = OpenAI | DeepSeek | Moonshot | Aliyun

  /** The key the `baseUrls` and `models` tables use, which is also the value
      of the provider menu's option. */
  function ProviderName(p: Provider): string
  {
    match p
    case OpenAI => "OpenAI"
    case DeepSeek => "DeepSeek"
    case Moonshot => "Moonshot (Kimi)"
    case Aliyun => "Aliyun (Qwen)"
  }

  /** Looking a menu value up in the tables; an unknown value has no entry. */
  function ProviderNamed(name: string): Option<Provider>
  {
    if name == "OpenAI" then Some(OpenAI)
    else if name == "DeepSeek" then Some(DeepSeek)
    else if name == "Moonshot (Kimi)" then Some(Moonshot)
    else if name == "Aliyun (Qwen)" then Some(Aliyun)
    else None
  }

  /** Every menu value finds its own table entry, and the table has no
      other keys. */
  lemma ProviderNameRoundTrip(p: Provider, name: string)
    ensures ProviderNamed(ProviderName(p)) == Some(p)
    ensures ProviderNamed(name).Some? ==> ProviderName(ProviderNamed(name).value) == name
  {
  }

  /** `baseUrls[provider]` */
  function BaseUrl(p: Provider): string
  {
    match p
    case OpenAI => "https://api.openai.com/v1"
    case DeepSeek => "https://api.deepseek.com"
    case Moonshot => "https://api.moonshot.cn/v1"
    case Aliyun => "https://dashscope.aliyuncs.com/compatible-mode/v1"
  }

  /** `models[provider]` */
  function ModelFor(p: Provider): string
  {
    match p
    case OpenAI => "gpt-3.5-turbo"
    case DeepSeek => "deepseek-chat"
    case Moonshot => "moonshot-v1-8k"
    case Aliyun => "qwen-plus"
  }

  /** The body of `POST /chat` (`ChatRequest` on the server). */
  datatype ChatRequest = ChatRequest(
    message: string,
    sessionId: string,
    openaiApiKey: string,
    tavilyApiKey: string,
    baseUrl: Option<string>,
    model: Option<string>)

  /** The body of `POST /pdf` (`PDFRequest` on the server); each message is a
      JSON object with string values. */
  datatype PdfRequest = PdfRequest(sessionId: string, title: string, messages: seq<map<string, string>>)
}
