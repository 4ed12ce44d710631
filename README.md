# Research-agent chat: session store, send cycle and backend helpers

The system is a research assistant in two parts. The first is a React client
(`frontend-new`). It keeps chat sessions in a map from session id to a record
with id, title, timestamp, messages and tags. It sends each question to the
backend and writes the answer, or an error text, back into the session. The
sidebar edits a session's title and tags, lists sessions newest first and
exports the current chat as a PDF. The second part is a FastAPI backend
(`backend/app`). It builds a LangGraph agent whose chatbot node calls an
OpenAI-compatible model and whose tools node runs a web search. It also lays
a PDF out of the chat history.

The Dafny project models that core:

- `App` (`app.dfy`): the session store and send cycle of `App.jsx`, as the class `App.AppState`. `handleSend` is split at its `await` into `BeginSend` and `FinishSend`. What the first half captured (session id and new message list) is kept in `pending`. That queue is how the model shows that a reply is written under the session id and the message list it captured, not the current ones.
- `Sidebar` (`sidebar.dfy`): tag editing, title editing, the sorted session list and the export flag of `Sidebar.jsx`. The list computations are pure functions. `tagInput`, `reportTitle` and `isExporting` are fields of `Sidebar.SidebarState`.
- `InputArea` (`input_area.dfy`): the single `input` field of `InputArea.jsx` and the guard that decides when a send fires.
- `Graph` (`graph.dfy`): model-name inference, the router, the node and edge wiring as data, and `get_graph_engine` in `graph.py`.
- `PdfService` (`pdf_service.dfy`): the markup escaping and the story built by `generate_pdf`, and the `register_font` once-flag as the class `PdfService.FontRegistry`.
- `Api` (`api.dfy`): the `/pdf` history normalisation, the `Content-Disposition` value, the `/chat` reply and the mapping of exceptions to HTTP 500 in `main.py`.
- `Text`, `Protocol`, `Base`: JavaScript `trim`/`slice` and Python `in`, the message and request records, the provider tables, `Option` and `Result`.

Calls to things outside the core are parameters of the model:

- The network reply to `/chat` is a `ChatOutcome`: `Ok(content)`, `HttpError(status)` or `Thrown(message)`.
- `uuidv4()` is a `freshId` argument, `Date.now()` a `now` argument and `window.confirm` a `confirmed` argument.
- `urllib.parse.quote` and the agent run (`ainvoke`) are function parameters.
- The clock string of the PDF header is an argument. So are the outcome of the font-file check and of the font registration, and an exception raised while ReportLab lays the document out.

Three behaviours of the code that the model states as they are:

- The title of a new chat is the first 20 characters of the first message. For "Explain quantum computing in simple terms" that is "Explain quantum comp" (`App.FirstQuestionTitle`).
- Updating the metadata of an id that has no record inserts a record holding only the update's fields.
- A failed send stores `"**Error**: " + message`.

## Model

| member | source | states |
|---|---|---|
| Protocol.ToDict | frontend-new/src/App.jsx:210 | a chat message is the record with exactly the keys role and content |
| Protocol.ToDicts | frontend-new/src/App.jsx:187-191 | the message list posted to `/pdf` is the messages as records, same length and order |
| Protocol.ProviderNameRoundTrip | frontend-new/src/components/Sidebar.jsx:395-398 | the four provider option values and the provider enumeration are in one-to-one correspondence |
| Protocol.ProviderName | frontend-new/src/components/Sidebar.jsx:395-398 | the option value of each provider: "OpenAI", "DeepSeek", "Moonshot (Kimi)", "Aliyun (Qwen)" |
| Protocol.ProviderNamed | frontend-new/src/components/Sidebar.jsx:395-398 | the provider whose option value is the given text, and none for any other text |
| Protocol.BaseUrl | frontend-new/src/App.jsx:55-60 | the `baseUrls` entry of each provider |
| Protocol.ModelFor | frontend-new/src/App.jsx:62-67 | the `models` entry of each provider |
| Graph.InferModelName | backend/app/graph.py:48-58 | a truthy explicit model is used whatever the base URL is; otherwise the result is one of the four known models, and with no base URL it is "gpt-3.5-turbo" |
| Graph.Truthy | backend/app/graph.py:48-52 | Python truthiness of an optional string: present and not empty |
| Graph.HintPrecedence | backend/app/graph.py:53-58 | with no model, "deepseek" wins over "moonshot", which wins over "dashscope"/"aliyuncs"; the default stays exactly when no hint occurs |
| Graph.EmptyModelIsMissing | backend/app/graph.py:48-51 | an empty-string model behaves exactly like a missing one |
| Graph.OpenAiUrlHasNoHint | backend/app/graph.py:53-58 | the OpenAI URL contains no hint, so inference keeps "gpt-3.5-turbo" |
| Graph.MoonshotUrlHint | backend/app/graph.py:55-56 | the Moonshot URL yields "moonshot-v1-8k" |
| Graph.AliyunUrlHint | backend/app/graph.py:57-58 | the Aliyun URL yields "qwen-plus"; it contains neither "deepseek" nor "moonshot" |
| Graph.InferenceMatchesProviderTable | frontend-new/src/App.jsx:55-67 | for every provider, inference from its URL alone gives the model the client's table pairs with it |
| Graph.ClientRequestsUseTableModel | backend/app/graph.py:48 | the model the client sends for a provider is the model the backend uses |
| Graph.Router | backend/app/graph.py:89-95 | "tools" exactly when the last message has tool calls, else "__end__"; an empty message list is the IndexError of `messages[-1]` |
| Graph.AgentGraph | backend/app/graph.py:98-110 | the two nodes, the entry point, the conditional edges on "chatbot" and the edge from "tools" to "chatbot" |
| Graph.AddNode | backend/app/graph.py:100-101 | `add_node` appends the node name and leaves the rest of the workflow as it is |
| Graph.SetEntryPoint | backend/app/graph.py:103 | `set_entry_point` sets the entry node |
| Graph.AddConditionalEdges | backend/app/graph.py:105-108 | `add_conditional_edges` marks the source node as routed by the router |
| Graph.AddEdge | backend/app/graph.py:110 | `add_edge` appends the fixed edge from source to target |
| Graph.AgentGraphIsLoop | backend/app/graph.py:98-110 | the wiring has the chatbot and tools nodes, entry "chatbot", the router on "chatbot", and "tools" always leads back to "chatbot" |
| Graph.GetGraphEngine | backend/app/graph.py:17-113 | the environment gains TAVILY_API_KEY; the search tool and LLM settings are the source's constants with the inferred model; the workflow is the agent loop |
| PdfService.Escape | backend/app/pdf_service.py:105 | the chain of three replaces: "<" by "&lt;", then ">" by "&gt;", then newline by "<br/>" |
| PdfService.ReplaceChar | backend/app/pdf_service.py:105 | Python `str.replace` of one character by a string, every occurrence, left to right |
| PdfService.EscapeEach | backend/app/pdf_service.py:105 | the reference escaping: each character replaced by its escape in one pass |
| PdfService.EscapeIsSinglePass | backend/app/pdf_service.py:105 | the three chained replaces equal one left-to-right pass over the characters, so the inserted "<br/>" is never re-escaped |
| PdfService.EscapeAppend | backend/app/pdf_service.py:105 | escaping a concatenation escapes each part |
| PdfService.EscapeLength | backend/app/pdf_service.py:105 | the escaped length is the length plus 3 per '<', 3 per '>' and 4 per newline |
| PdfService.PlainTextUnchanged | backend/app/pdf_service.py:105 | text without '<', '>' or newline comes back unchanged ('&' is not escaped) |
| PdfService.EscapedHasNoNewline | backend/app/pdf_service.py:105 | escaped text holds no newline |
| PdfService.MessageItems | backend/app/pdf_service.py:99-115 | the flowables one message contributes, from its role and escaped content |
| PdfService.ItemsOf | backend/app/pdf_service.py:98-115 | the items of every message, in input order |
| PdfService.Header | backend/app/pdf_service.py:93-95 | the title paragraph, the "生成时间: " paragraph and the 1x20 spacer |
| PdfService.StoryOf | backend/app/pdf_service.py:93-115 | the header followed by the items of the messages |
| PdfService.Get | backend/app/pdf_service.py:99-100 | `msg.get(key, default)`: the stored value when the key is present, else the default |
| PdfService.TitleStyle | backend/app/pdf_service.py:64-71 | "TitleStyle" on Heading1, font size 18, space after 20, centred |
| PdfService.NormalStyle | backend/app/pdf_service.py:73-80 | "NormalStyle" on Normal, font size 10, leading 14, space after 10 |
| PdfService.BoldStyle | backend/app/pdf_service.py:82-90 | "BoldStyle" on Normal, font size 11, leading 14, space after 6, dark blue text |
| PdfService.FontFor | backend/app/pdf_service.py:58-59 | "ChineseFont" when registration succeeded, else "Helvetica" |
| PdfService.MessageItemsByRole | backend/app/pdf_service.py:99-115 | "user" gives a bold "Q: " paragraph, "assistant" a normal "A: " paragraph and a 1x10 spacer, any other or missing role nothing |
| PdfService.MissingContentIsEmpty | backend/app/pdf_service.py:100 | a message without content renders like one with content "" |
| PdfService.ItemsAppend | backend/app/pdf_service.py:98 | the items of concatenated messages are the concatenated items, so input order is kept |
| PdfService.ItemsCount | backend/app/pdf_service.py:107-115 | the message items number one per user message and two per assistant message; tool and other roles add none |
| PdfService.StoryLength | backend/app/pdf_service.py:93-115 | the whole story has three title-page items plus one per user message and two per assistant message |
| PdfService.BuildStory | backend/app/pdf_service.py:93-115 | the loop builds the title paragraph, the generation-time paragraph, a 1x20 spacer, then each message's items in input order |
| PdfService.AppendMessage | backend/app/pdf_service.py:99-115 | one loop step appends exactly that message's items |
| PdfService.FontRegistry.constructor | backend/app/pdf_service.py:21 | the flag starts false |
| PdfService.FontRegistry.RegisterFont | backend/app/pdf_service.py:23-41 | once true, later calls return true without registering again; a missing file or failed registration leaves the flag false so later calls retry |
| PdfService.GeneratePdf | backend/app/pdf_service.py:43-118 | the story uses "ChineseFont" when registration succeeded (now or before) and "Helvetica" otherwise |
| Api.NormalizeEntry | backend/app/main.py:80-86 | each history entry has exactly the keys role and content, defaulting to "unknown" and "" |
| Api.NormalizedHistory | backend/app/main.py:77-89 | history has the length and order of the request's messages; an empty list gives an empty history |
| Api.BuildHistory | backend/app/main.py:77-89 | the appending loop computes the normalised history |
| Api.NormalizeIdempotent | backend/app/main.py:80-86 | normalising a normalised history changes nothing |
| Api.ClientMessagesUnchanged | backend/app/main.py:80-86 | the records the client sends pass through normalisation unchanged |
| Api.ContentDisposition | backend/app/main.py:93-100 | the header value is the fixed prefix, the quoted title and ".pdf" |
| Api.FilenameRoundTrip | backend/app/main.py:100 | the file name read back after the prefix is the quoted title plus ".pdf" |
| Api.DispositionIsExtValue | backend/app/main.py:100 | the value is `filename*=` with an ext-value of section 3.2 of RFC 5987 (charset UTF-8, empty language) whose characters are value-chars |
| Api.ServerError | backend/app/main.py:104-107 | an exception becomes HTTP 500 with the exception text as detail |
| Api.Health | backend/app/main.py:24-26 | `/health` answers status "ok" and version "1.0.0-lite" |
| Api.PdfEndpoint | backend/app/main.py:68-107 | the response carries the story of the normalised history and the Content-Disposition header, or is the 500 error of a raised exception |
| Api.ChatReply | backend/app/main.py:57-66 | the reply is the last message's content; an agent error or an empty result is HTTP 500 |
| Api.ChatEndpoint | backend/app/main.py:28-66 | the engine is built from the request's keys, base URL and inferred model; an exception while it is built is HTTP 500; otherwise the reply is the run's last message or HTTP 500 |
| InputArea.CanSend | frontend-new/src/components/InputArea.jsx:81 | the guard `input.trim() && !isLoading` |
| InputArea.SubmitsOnKey | frontend-new/src/components/InputArea.jsx:74 | a key press sends exactly when it is Enter without Shift |
| InputArea.SendDisabled | frontend-new/src/components/InputArea.jsx:103 | the button's `!input.trim() \|\| isLoading` |
| InputArea.SendDisabledIff | frontend-new/src/components/InputArea.jsx:103 | the button is disabled exactly when the input is blank or a send is loading, which is exactly when a send is refused |
| InputArea.InputBox.constructor | frontend-new/src/components/InputArea.jsx:71 | the input starts empty |
| InputArea.InputBox.HandleInput | frontend-new/src/components/InputArea.jsx:87-88 | the input becomes the typed value |
| InputArea.InputBox.HandleSend | frontend-new/src/components/InputArea.jsx:80-85 | a send fires exactly when the trimmed input is non-empty and nothing is loading; it carries the untrimmed input and clears it; otherwise the input is kept |
| InputArea.InputBox.HandleKeyDown | frontend-new/src/components/InputArea.jsx:73-78 | Enter without Shift is prevented and submits; any other key neither submits nor changes the input |
| Text.Trim | frontend-new/src/components/InputArea.jsx:81 | `String.prototype.trim`: ECMAScript white space dropped at both ends |
| Text.Contains | backend/app/graph.py:53-57 | Python's `sub in s` on strings |
| Text.TrimEmptyIff | frontend-new/src/components/InputArea.jsx:81 | `!s.trim()` holds exactly when s is all JavaScript white space |
| Text.TrimIsInfix | frontend-new/src/components/Sidebar.jsx:294 | the trimmed tag is an infix of the input with white space dropped at both ends and none left at either end |
| Text.TrimIdempotent | frontend-new/src/components/Sidebar.jsx:290 | trimming a trimmed string changes nothing |
| Text.SlicePrefix | frontend-new/src/App.jsx:113 | `slice(0, n)` is a prefix of length min(n, length) |
| Text.NatToDecimal | frontend-new/src/App.jsx:233 | the status renders as non-empty decimal digits with no leading zero |
| Text.DecimalRoundTrip | frontend-new/src/App.jsx:233 | reading the rendered digits back gives the status |
| App.DeriveTitle | frontend-new/src/App.jsx:113 | keep a truthy stored title; else the first 20 characters of the first message; else "New Chat"; never empty |
| App.TruthyText | frontend-new/src/App.jsx:113 | JavaScript truthiness of an optional title: present and not the empty string |
| App.TruthyTime | frontend-new/src/App.jsx:114 | JavaScript truthiness of an optional timestamp: present and not 0 |
| App.DeriveTimestamp | frontend-new/src/App.jsx:114 | keep a truthy stored timestamp, else the clock |
| App.Persist | frontend-new/src/App.jsx:109-117 | the record for the id is rebuilt with exactly id, title, timestamp and messages (tags are dropped); every other key is untouched |
| App.PersistKeepsTitleAndTime | frontend-new/src/App.jsx:113-114 | a second persist of the same session keeps the title and timestamp the first one set |
| App.FirstQuestionTitle | frontend-new/src/App.jsx:113 | for the example question "Explain quantum computing in simple terms" the title is "Explain quantum comp" |
| App.EmptyTitleRederived | frontend-new/src/App.jsx:113 | an empty stored title is treated as absent and derived again |
| App.Merge | frontend-new/src/App.jsx:136-139 | `{...prev[id], ...updates}` field by field; a missing record spreads nothing |
| App.MergeMeaning | frontend-new/src/App.jsx:136-139 | the shallow merge has the union of both records' fields; fields of the update win, the others come from the old record |
| App.Restrict | frontend-new/src/App.jsx:137 | the fields of the old record the update does not override |
| App.MergeIntoAbsent | frontend-new/src/App.jsx:136-139 | merging into no record gives exactly the update's fields |
| App.ApplyUpdate | frontend-new/src/App.jsx:133-141 | only the key of the update changes; an absent id gets exactly the update; a present one has the union of fields, the update's values, and the stored values of every field the update does not set |
| App.ApplyUpdateIdempotent | frontend-new/src/App.jsx:133-141 | applying the same update twice is applying it once |
| App.Delete | frontend-new/src/App.jsx:144-148 | only the given key is removed; the other records are untouched |
| App.PersistKeepsKeyed | frontend-new/src/App.jsx:111-112 | every record's id field still equals its key after a persist |
| App.UpdateKeepsKeyed | frontend-new/src/App.jsx:133-141 | an update without a foreign id keeps every record keyed by its own id |
| App.ErrorMessage | frontend-new/src/App.jsx:233 | the thrown error's message: "HTTP error! status: " and the status for a non-ok response, the exception's own message otherwise |
| App.ReplyContent | frontend-new/src/App.jsx:237-252 | the assistant text is the reply content, or "**Error**: " and the error message |
| App.HttpStatusShown | frontend-new/src/App.jsx:232-234 | a non-ok status is stored as "**Error**: HTTP error! status: " and the status's decimal digits, which read back as the status |
| App.Exchange | frontend-new/src/App.jsx:204-255 | the store after the question is persisted with the clock at sending and the answered list with the clock at the reply |
| App.ExchangeRecord | frontend-new/src/App.jsx:210-255 | after a send the record holds the prior messages, the question and the reply; title and timestamp come from the first persist; tags are gone |
| App.NewChatTitledByQuestion | frontend-new/src/App.jsx:113 | a new chat is titled by the first 20 characters of its question, or "New Chat" for an empty question |
| App.LoadMessagesAsWritten | frontend-new/src/App.jsx:92-98 | the load effect as written: a record's `messages` field, undefined when the record lacks it, [] without a record |
| App.LoadMessages | frontend-new/src/App.jsx:92-98 | the displayed messages are the record's messages, or [] when there is no record or it has no messages |
| App.MetadataOnNewChatLosesMessages | frontend-new/src/App.jsx:92-98 | after a title or tag edit on a chat with no record, the load effect as written yields undefined; the corrected load yields [] |
| App.LoadMessagesCorrects | frontend-new/src/App.jsx:92-98 | wherever the load as written yields a message list, the corrected load yields the same list |
| App.ReloadAfterPersist | frontend-new/src/App.jsx:92-98 | after a persist the load effect shows exactly the persisted messages |
| App.ChatRequestFor | frontend-new/src/App.jsx:219-230 | the request carries the text, the session id, both keys, and the provider's URL and model |
| App.ExportFor | frontend-new/src/App.jsx:181-202 | nothing is exported exactly when there are no messages; otherwise the request holds session, title and messages, and the download is named title + ".pdf" when the server answers |
| App.AppState.constructor | frontend-new/src/App.jsx:79-178 | the saved store or {} (lines 79-82), a fresh current id, no messages, not loading, and the config of lines 174-178: provider OpenAI and empty keys |
| App.AppState.UpdateCurrentSession | frontend-new/src/App.jsx:106-119 | the messages are shown; with persisting the store is the persisted one, without it the store is unchanged |
| App.AppState.LoadCurrentMessages | frontend-new/src/App.jsx:92-98 | the displayed messages become the corrected load of the current session |
| App.AppState.HandleNewChat | frontend-new/src/App.jsx:121-126 | a fresh current id and no messages; the store is unchanged |
| App.AppState.HandleSelectSession | frontend-new/src/App.jsx:128-131 | only the current id changes |
| App.AppState.HandleUpdateSession | frontend-new/src/App.jsx:133-141 | the store becomes the shallow-merge update; nothing else changes |
| App.AppState.HandleDeleteSession | frontend-new/src/App.jsx:143-156 | only the id is removed; deleting the current session moves to a fresh id that has no record and clears the messages; otherwise the current id and messages are kept |
| App.AppState.HandleClearHistory | frontend-new/src/App.jsx:158-165 | when confirmed: empty store, fresh id, no messages; when declined: no change |
| App.AppState.SetConfig | frontend-new/src/App.jsx:174-178 | only the configuration changes |
| App.AppState.HandleExportPDF | frontend-new/src/App.jsx:181-202 | the export outcome for the current messages and session; no state changes |
| App.AppState.BeginSend | frontend-new/src/App.jsx:204-216 | a missing key changes nothing and sends nothing; otherwise the question is appended, persisted and shown, loading starts and the request is built |
| App.AppState.FinishSend | frontend-new/src/App.jsx:218-255 | the captured messages plus the reply are shown and persisted under the captured session id; loading ends |
| App.AppState.HandleSend | frontend-new/src/App.jsx:204-256 | an uninterrupted send ends with the prior messages, the question and the reply, stored as one exchange, and not loading |
| App.AppState.Submit | frontend-new/src/components/InputArea.jsx:80-85 | sends from the message box keep at most one request outstanding; when the box's guard fails nothing changes; when it passes the box is cleared and the state is that of the first half of `handleSend` for the untrimmed input |
| App.AppState.Receive | frontend-new/src/App.jsx:237-255 | the reply to the one outstanding request is appended to the messages it closed over, shown and stored under its session; loading ends and nothing remains outstanding |
| App.AppState.QuickPromptAsWritten | frontend-new/src/components/ChatArea.jsx:268 | a quick-prompt click runs the first half of `handleSend` whatever the loading flag, adding a second outstanding request when one is pending |
| App.AppState.QuickPrompt | frontend-new/src/components/ChatArea.jsx:268 | the quick prompt under the loading guard sends nothing while loading and keeps at most one request outstanding |
| App.QuickPromptDuringReply | frontend-new/src/App.jsx:253-255 | send, New Chat, quick prompt, first reply: one request is still outstanding while the loading flag is down |
| Sidebar.CurrentTags | frontend-new/src/components/Sidebar.jsx:278-279 | a session with no record or no tags field has tags [] |
| Sidebar.AddTag | frontend-new/src/components/Sidebar.jsx:288-297 | blank input: no update and the input is kept; trimmed tag present: no update and the input is cleared; else the trimmed tag is appended |
| Sidebar.AddTagKeepsDistinct | frontend-new/src/components/Sidebar.jsx:294 | adding keeps a duplicate-free tag list duplicate-free |
| Sidebar.RemoveTag | frontend-new/src/components/Sidebar.jsx:300 | every occurrence of the tag is removed and all other tags are kept |
| Sidebar.TagsUpdate | frontend-new/src/components/Sidebar.jsx:295 | the update object `{ tags: newTags }`: only the tags field is set |
| Sidebar.TitleUpdate | frontend-new/src/components/Sidebar.jsx:306 | the update object `{ title: e.target.value }`: only the title field is set |
| Sidebar.RemoveTagAppend | frontend-new/src/components/Sidebar.jsx:300 | the filter works piecewise, so the order of the rest is kept |
| Sidebar.RemoveAbsentTag | frontend-new/src/components/Sidebar.jsx:300 | removing an absent tag gives an identical list |
| Sidebar.AddThenRemove | frontend-new/src/components/Sidebar.jsx:288-302 | removing a just-added tag restores the list |
| Sidebar.RemoveKeepsDistinct | frontend-new/src/components/Sidebar.jsx:300 | removing keeps a duplicate-free list duplicate-free |
| Sidebar.Before | frontend-new/src/components/Sidebar.jsx:311 | the comparator `b.timestamp - a.timestamp` puts a ahead of b only when both have a timestamp and a's is strictly later |
| Sidebar.Insert | frontend-new/src/components/Sidebar.jsx:311 | one insertion step adds exactly the element |
| Sidebar.SortedSessions | frontend-new/src/components/Sidebar.jsx:310-312 | the sorted list is a permutation of the records |
| Sidebar.InsertDescending | frontend-new/src/components/Sidebar.jsx:311 | inserting into a list of non-increasing timestamps keeps it non-increasing |
| Sidebar.SortedSessionsDescending | frontend-new/src/components/Sidebar.jsx:310-312 | when every record has a timestamp, the list has non-increasing timestamps |
| Sidebar.SidebarState.constructor | frontend-new/src/components/Sidebar.jsx:274-276 | report title "我的研报", not exporting, empty tag input |
| Sidebar.SidebarState.HandleTagInput | frontend-new/src/components/Sidebar.jsx:448 | the tag input becomes the typed value |
| Sidebar.SidebarState.SyncReportTitle | frontend-new/src/components/Sidebar.jsx:282-286 | a truthy session title replaces the report title; otherwise it is kept |
| Sidebar.SidebarState.HandleAddTag | frontend-new/src/components/Sidebar.jsx:288-297 | the add-tag decision applied to the tag input and the store, with nothing else in the app changed |
| Sidebar.SidebarState.HandleRemoveTag | frontend-new/src/components/Sidebar.jsx:299-302 | the filtered tag list is sent as an update, even when nothing was removed |
| Sidebar.SidebarState.HandleTitleChange | frontend-new/src/components/Sidebar.jsx:304-307 | the raw value, "" included, becomes the report title and the session's stored title |
| Sidebar.SidebarState.HandleExportClick | frontend-new/src/components/Sidebar.jsx:314-324 | not exporting afterwards on success and on failure; an alert exactly on failure |

## Left out

- Persistence: the `localStorage` load and save effects (frontend-new/src/App.jsx:79-82, 101-103) are not modelled. The saved store is a constructor argument. The `JSON.parse` of the saved text is not guarded, so corrupt storage throws at start-up; the model does not cover that case.
- Browser and network: `fetch`, `axios`, the Blob download, DOM link creation, `alert` and `console` are left out. The server's answer is an outcome parameter (`ChatOutcome`, `serverOk`).
- Backend logging: the `print` calls of `register_font` (backend/app/pdf_service.py:33, 37, 40) and the `traceback.print_exc()` calls of the two endpoints (backend/app/main.py:64-65, 105-106) write only to the console, so they are left out.
- React scheduling: state updates are applied in order, one after the other. `BeginSend` and `FinishSend` show only the stale-closure effect of `handleSend`, through the `pending` queue. Batching and re-render timing are not modelled.
- Presentation: layout, themes, collapse flags and the markdown rendering in `ChatArea.jsx` are left out.
- Quick prompts: a card of the welcome screen (frontend-new/src/components/ChatArea.jsx:268) calls `handleSend` without the loading guard. The model shows the overlap it allows (`App.AppState.QuickPromptAsWritten`, `App.QuickPromptDuringReply`); `AtMostOneInFlight` holds only for sends from the message box and the guarded `App.AppState.QuickPrompt`.
- Api.ChatEndpoint: an exception raised while the engine is built is the `buildError` argument. Which constructor raises it, and why, is not modelled.
- Agent runtime: `ChatOpenAI`, `TavilySearchResults`, `ToolNode`, `MemorySaver` and `ainvoke` become records of their settings and an `invoke` parameter. What the agent answers is not modelled.
- Wider state: the rest of `os.environ` is a plain map argument. Concurrent requests that overwrite `TAVILY_API_KEY` are not modelled.
- PDF layout: `doc.build`, page layout, font files and `datetime.now` are not modelled. The story is a list of paragraph and spacer descriptors, and the clock string is an argument.
- `frontend/app.py`, the Streamlit client, is not part of this model. Its provider tables duplicate the client's.
- Text.SlicePrefix: counts Unicode characters where JavaScript's `slice` counts UTF-16 code units. A title cut inside a surrogate pair is therefore not modelled.
- Sidebar.SortedSessions: insertion sort stands in for `Array.prototype.sort`. Their orders agree when all timestamps are present and distinct; ties keep input order, as a stable sort does. `Object.values` order is the input sequence.
- Sidebar.SortedSessionsDescending: requires every record to have a timestamp. A partial record (from a title or tag edit on a new chat) makes the comparator produce `NaN`, and JavaScript then leaves the order implementation-defined.
- Api.DispositionIsExtValue: requires that `quote` yields value-chars. Python's `quote` keeps '/' unescaped by default (`safe='/'`), and '/' is not an attr-char, so a title containing '/' gives a value outside RFC 5987.
- Api.NormalizeEntry: message fields are strings. Python would pass through any JSON value a client puts under role or content.
- PdfService.FontRegistry: the module-global `_font_registered` is a field of one registry object. The file check and registration outcome are arguments, and `attempts` (ghost) counts registration calls.
- App.Session: stored records carry only the five known fields. Extra JSON fields a record might hold are not modelled.

## Findings

| source | as written | input that shows it | evidently intended | confidence | as-written member | corrected member |
|---|---|---|---|---|---|---|
| frontend-new/src/App.jsx:92-98 | the load effect sets `messages` to `sessions[id].messages` whenever a record exists, even one without a messages field; `handleUpdateSession` (App.jsx:133-141) inserts such a record when the title or a tag of a chat with no stored record is edited (the editors are always visible, Sidebar.jsx:425-460), and ChatArea then reads `messages.length` of undefined (ChatArea.jsx:257) | start a new chat, type a title in the report-title field before sending anything | show [] for a record that has no messages | not executed | App.LoadMessagesAsWritten, shown by App.MetadataOnNewChatLosesMessages | App.LoadMessages, with App.LoadMessagesCorrects, used by App.AppState.LoadCurrentMessages |
| frontend-new/src/components/ChatArea.jsx:268 | a quick-prompt card calls `onSend(prompt)`, which is `handleSend`, without checking `isLoading`; the cards show whenever no messages are displayed, which New Chat (App.jsx:121-126) brings about during a pending reply; the first reply's `finally` (App.jsx:253-255) then lowers the loading flag while the second request is outstanding | send a question, press New Chat before the answer, click a quick prompt | the quick prompt sends only when nothing is loading, like the message box (InputArea.jsx:81) | not executed | App.AppState.QuickPromptAsWritten, shown by App.QuickPromptDuringReply | App.AppState.QuickPrompt, which keeps App.AppState.AtMostOneInFlight |
