/** The session store and send cycle of frontend-new/src/App.jsx: a map from
    session id to a stored record, the current session id, the messages on
    screen, the loading flag and the provider settings. `uuidv4` is a fresh
    id passed in, `Date.now` a clock reading, `window.confirm` a boolean and
    the network an outcome value. React's state updates are applied in
    order, one after the other. */
module App {
  import opened Base
  import opened Text
  import opened Protocol
  import opened InputArea

  /** A stored session record. Any field may be missing: a record created
      by a metadata update holds only the fields of that update. */
  datatype Session = Session(
    id: Option<string>,
    title: Option<string>,
    timestamp: Option<int>,
    messages: Option<seq<Message>>,
    tags: Option<seq<string>>)

  type Store = map<string, Session>

  const NoFields := Session(None, None, None, None, None)
  const NewChatTitle := "New Chat"
  const TitleLength := 20

  /** JavaScript truthiness of an optional string and an optional number. */
  predicate TruthyText(o: Option<string>)
  {
    o.Some? && o.value != ""
  }

  predicate TruthyTime(o: Option<int>)
  {
    o.Some? && o.value != 0
  }

  function Lookup(store: Store, id: string): Option<Session>
  {
    if id in store then Some(store[id]) else None
  }

  /** `prev[id]?.title || newMessages[0]?.content.slice(0, 20) || 'New Chat'` */
  function DeriveTitle(prev: Option<Session>, newMessages: seq<Message>): (t: string)
    ensures t != ""
    ensures prev.Some? && TruthyText(prev.value.title) ==> t == prev.value.title.value
    ensures !(prev.Some? && TruthyText(prev.value.title)) && newMessages != [] && newMessages[0].content != "" ==>
      t <= newMessages[0].content && |t| == (if |newMessages[0].content| < TitleLength then |newMessages[0].content| else TitleLength)
    ensures !(prev.Some? && TruthyText(prev.value.title)) && (newMessages == [] || newMessages[0].content == "") ==>
      t == NewChatTitle
  {
    if prev.Some? && TruthyText(prev.value.title) then prev.value.title.value
    else
      var head := if newMessages == [] then "" else SlicePrefix(newMessages[0].content, TitleLength);
      if head != "" then head else NewChatTitle
  }

  /** `prev[id]?.timestamp || Date.now()` */
  function DeriveTimestamp(prev: Option<Session>, now: int): (ts: int)
    ensures prev.Some? && TruthyTime(prev.value.timestamp) ==> ts == prev.value.timestamp.value
    ensures !(prev.Some? && TruthyTime(prev.value.timestamp)) ==> ts == now
  {
    if prev.Some? && TruthyTime(prev.value.timestamp) then prev.value.timestamp.value else now
  }

  /** The store after `updateCurrentSession(newMessages, true)` for session
      `id`: the record is rebuilt from scratch with exactly id, title,
      timestamp and messages, so stored tags are dropped. */
  function Persist(store: Store, id: string, newMessages: seq<Message>, now: int): (r: Store)
    ensures r.Keys == store.Keys + {id}
    ensures forall k :: k in store && k != id ==> r[k] == store[k]
    ensures r[id].id == Some(id) && r[id].messages == Some(newMessages) && r[id].tags == None
    ensures r[id].title == Some(DeriveTitle(Lookup(store, id), newMessages))
    ensures r[id].timestamp == Some(DeriveTimestamp(Lookup(store, id), now))
  {
    var prev := Lookup(store, id);
    store[id := Session(Some(id), Some(DeriveTitle(prev, newMessages)), Some(DeriveTimestamp(prev, now)),
                        Some(newMessages), None)]
  }

  /** Once a session has been stored with a non-zero clock, later stores
      keep its title and its timestamp. */
  lemma PersistKeepsTitleAndTime(store: Store, id: string, m1: seq<Message>, m2: seq<Message>, t1: int, t2: int)
    requires t1 != 0
    ensures var s1 := Persist(store, id, m1, t1);
      var s2 := Persist(s1, id, m2, t2);
      s2[id].title == s1[id].title && s2[id].timestamp == s1[id].timestamp
  {
    var s1 := Persist(store, id, m1, t1);
    assert Lookup(s1, id) == Some(s1[id]);
    assert TruthyText(s1[id].title);
    assert TruthyTime(s1[id].timestamp);
  }

  /** The example of a first question: the title is its first 20 characters. */
  lemma FirstQuestionTitle()
    ensures DeriveTitle(None, [Message("user", "Explain quantum computing in simple terms")]) == "Explain quantum comp"
  {
    var c := "Explain quantum computing in simple terms";
    assert c[..20] == "Explain quantum comp";
  }

  /** An empty stored title counts as missing and is derived again. */
  lemma EmptyTitleRederived(store: Store, id: string, newMessages: seq<Message>, now: int)
    requires id in store && store[id].title == Some("")
    ensures Persist(store, id, newMessages, now)[id].title == Some(DeriveTitle(None, newMessages))
  {
  }

  /** `{...base, ...top}` for one field. */
  function Over<T>(base: Option<T>, top: Option<T>): Option<T>
  {
    if top.Some? then top else base
  }

  /** `{...prev, ...updates}`; spreading a missing record adds nothing. */
  function Merge(prev: Option<Session>, u: Session): Session
  {
    var b := if prev.Some? then prev.value else NoFields;
    Session(Over(b.id, u.id), Over(b.title, u.title), Over(b.timestamp, u.timestamp),
            Over(b.messages, u.messages), Over(b.tags, u.tags))
  }

  /** Whether a record holds the field named `f`. */
  predicate Has(s: Session, f: string)
  {
    (f == "id" && s.id.Some?) || (f == "title" && s.title.Some?) || (f == "timestamp" && s.timestamp.Some?) ||
    (f == "messages" && s.messages.Some?) || (f == "tags" && s.tags.Some?)
  }

  /** `r` holds `u`'s value for every field `u` sets. */
  predicate Agrees(r: Session, u: Session)
  {
    (u.id.Some? ==> r.id == u.id) && (u.title.Some? ==> r.title == u.title) &&
    (u.timestamp.Some? ==> r.timestamp == u.timestamp) && (u.messages.Some? ==> r.messages == u.messages) &&
    (u.tags.Some? ==> r.tags == u.tags)
  }

  /** The merged record holds the union of both records' fields, with the
      update's values winning, and the old record's values for the fields
      the update does not set. */
  lemma MergeMeaning(prev: Session, u: Session)
    ensures forall f :: Has(Merge(Some(prev), u), f) <==> Has(prev, f) || Has(u, f)
    ensures Agrees(Merge(Some(prev), u), u)
    ensures Agrees(Merge(Some(prev), u), Restrict(prev, u))
  {
  }

  /** The fields of `prev` that `u` does not set. */
  function Restrict(prev: Session, u: Session): (r: Session)
    ensures forall f :: Has(r, f) <==> Has(prev, f) && !Has(u, f)
  {
    Session(if u.id.Some? then None else prev.id, if u.title.Some? then None else prev.title,
            if u.timestamp.Some? then None else prev.timestamp, if u.messages.Some? then None else prev.messages,
            if u.tags.Some? then None else prev.tags)
  }

  /** The store after `handleUpdateSession(id, u)`. */
  function ApplyUpdate(store: Store, id: string, u: Session): (r: Store)
    ensures r.Keys == store.Keys + {id}
    ensures forall k :: k in store && k != id ==> r[k] == store[k]
    ensures id !in store ==> r[id] == u
    ensures id in store ==> (forall f :: Has(r[id], f) <==> Has(store[id], f) || Has(u, f)) && Agrees(r[id], u)
    ensures id in store ==> Agrees(r[id], Restrict(store[id], u))
  {
    MergeIntoAbsent(u);
    MergeFacts(Lookup(store, id), u);
    store[id := Merge(Lookup(store, id), u)]
  }

  lemma MergeFacts(prev: Option<Session>, u: Session)
    ensures prev.Some? ==> (forall f :: Has(Merge(prev, u), f) <==> Has(prev.value, f) || Has(u, f)) && Agrees(Merge(prev, u), u)
    ensures prev.Some? ==> Agrees(Merge(prev, u), Restrict(prev.value, u))
  {
    if prev.Some? { MergeMeaning(prev.value, u); }
  }

  lemma MergeIntoAbsent(u: Session)
    ensures Merge(None, u) == u
  {
  }

  /** Applying the same update twice is applying it once. */
  lemma ApplyUpdateIdempotent(store: Store, id: string, u: Session)
    ensures ApplyUpdate(ApplyUpdate(store, id, u), id, u) == ApplyUpdate(store, id, u)
  {
    var s1 := ApplyUpdate(store, id, u);
    assert Lookup(s1, id) == Some(Merge(Lookup(store, id), u));
  }

  /** The store after `delete newSessions[id]`. */
  function Delete(store: Store, id: string): (r: Store)
    ensures r.Keys == store.Keys - {id}
    ensures forall k :: k in r ==> r[k] == store[k]
  {
    store - {id}
  }

  /** Every record that carries an id carries its own key. */
  predicate KeyedById(store: Store)
  {
    forall k :: k in store && store[k].id.Some? ==> store[k].id.value == k
  }

  lemma PersistKeepsKeyed(store: Store, id: string, newMessages: seq<Message>, now: int)
    requires KeyedById(store)
    ensures KeyedById(Persist(store, id, newMessages, now))
  {
  }

  lemma UpdateKeepsKeyed(store: Store, id: string, u: Session)
    requires KeyedById(store)
    requires u.id.None? || u.id == Some(id)
    ensures KeyedById(ApplyUpdate(store, id, u))
  {
    var r := ApplyUpdate(store, id, u);
    forall k | k in r && r[k].id.Some?
      ensures r[k].id.value == k
    {
      if k == id {
        if id in store { MergeMeaning(store[id], u); }
      }
    }
  }

  /** What the network call of `handleSend` came back with. */
  datatype ChatOutcome = Ok(content: string) | HttpError(status: nat) | Thrown(message: string)

  const ErrorPrefix := "**Error**: "
  const HttpErrorText := "HTTP error! status: "

  /** `error.message` for a failed exchange. */
  function ErrorMessage(o: ChatOutcome): string
    requires !o.Ok?
  {
    if o.HttpError? then HttpErrorText + NatToDecimal(o.status) else o.message
  }

  /** The content of the assistant message that ends an exchange. */
  function ReplyContent(o: ChatOutcome): (c: string)
    ensures o.Ok? ==> c == o.content
    ensures !o.Ok? ==> c == ErrorPrefix + ErrorMessage(o)
  {
    if o.Ok? then o.content else ErrorPrefix + ErrorMessage(o)
  }

  /** The status of a failed response can be read back from the message
      shown in its place. */
  lemma HttpStatusShown(status: nat)
    ensures var m := ErrorMessage(HttpError(status));
      ReplyContent(HttpError(status)) == ErrorPrefix + m &&
      |HttpErrorText| < |m| && m[..|HttpErrorText|] == HttpErrorText &&
      (forall k :: |HttpErrorText| <= k < |m| ==> '0' <= m[k] <= '9') && DecimalValue(m[|HttpErrorText|..]) == status
  {
    var m, d := ErrorMessage(HttpError(status)), NatToDecimal(status);
    assert m == HttpErrorText + d;
    SplitConcat(HttpErrorText, d);
    forall k | |HttpErrorText| <= k < |m|
      ensures '0' <= m[k] <= '9'
    {
      assert m[k] == d[k - |HttpErrorText|];
    }
    DecimalRoundTrip(status);
  }

  lemma SplitConcat(p: string, d: string)
    ensures (p + d)[..|p|] == p && (p + d)[|p|..] == d
  {
  }

  /** The store after a whole exchange in session `id`: the question is
      stored first, then the question with its reply. */
  function Exchange(store: Store, id: string, prior: seq<Message>, text: string, o: ChatOutcome, sent: int, answered: int): Store
  {
    var asked := prior + [Message("user", text)];
    Persist(Persist(store, id, asked, sent), id, asked + [Message("assistant", ReplyContent(o))], answered)
  }

  /** After an exchange the record holds the earlier messages, the question
      and the reply; its title and timestamp were fixed when the question
      was stored. */
  lemma ExchangeRecord(store: Store, id: string, prior: seq<Message>, text: string, o: ChatOutcome, sent: int, answered: int)
    requires sent != 0
    ensures var r := Exchange(store, id, prior, text, o, sent, answered);
      r[id].messages == Some(prior + [Message("user", text), Message("assistant", ReplyContent(o))]) &&
      r[id].title == Some(DeriveTitle(Lookup(store, id), prior + [Message("user", text)])) &&
      r[id].timestamp == Some(DeriveTimestamp(Lookup(store, id), sent)) &&
      r[id].tags == None
  {
    var asked := prior + [Message("user", text)];
    PersistKeepsTitleAndTime(store, id, asked, asked + [Message("assistant", ReplyContent(o))], sent, answered);
    assert asked + [Message("assistant", ReplyContent(o))] == prior + [Message("user", text), Message("assistant", ReplyContent(o))];
  }

  /** The first exchange of a new chat is titled by the question. */
  lemma NewChatTitledByQuestion(store: Store, id: string, text: string, o: ChatOutcome, sent: int, answered: int)
    requires id !in store && sent != 0
    ensures var r := Exchange(store, id, [], text, o, sent, answered);
      r[id].title == Some(if text == "" then NewChatTitle else SlicePrefix(text, TitleLength))
  {
    ExchangeRecord(store, id, [], text, o, sent, answered);
  }

  /** The load effect as written: `sessions[id].messages` when a record
      exists, `[]` otherwise; `None` stands for `undefined`. */
  function LoadMessagesAsWritten(store: Store, id: string): Option<seq<Message>>
  {
    if id in store then store[id].messages else Some([])
  }

  /** The load effect with a record's missing messages read as `[]`. */
  function LoadMessages(store: Store, id: string): (ms: seq<Message>)
    ensures id in store && store[id].messages.Some? ==> ms == store[id].messages.value
    ensures !(id in store && store[id].messages.Some?) ==> ms == []
  {
    if id in store then store[id].messages.GetOr([]) else []
  }

  /** Editing the title or adding a tag on a chat that has no record yet
      makes the load effect as written put `undefined` on screen. */
  lemma MetadataOnNewChatLosesMessages(store: Store, id: string, u: Session)
    requires id !in store && u.messages.None?
    ensures LoadMessagesAsWritten(ApplyUpdate(store, id, u), id) == None
    ensures LoadMessages(ApplyUpdate(store, id, u), id) == []
  {
  }

  /** The corrected effect differs from the original only where the
      original yields `undefined`. */
  lemma LoadMessagesCorrects(store: Store, id: string)
    ensures LoadMessagesAsWritten(store, id).Some? ==> LoadMessages(store, id) == LoadMessagesAsWritten(store, id).value
  {
  }

  /** Reloading a stored session shows exactly the messages stored. */
  lemma ReloadAfterPersist(store: Store, id: string, newMessages: seq<Message>, now: int)
    ensures LoadMessages(Persist(store, id, newMessages, now), id) == newMessages
    ensures LoadMessagesAsWritten(Persist(store, id, newMessages, now), id) == Some(newMessages)
  {
  }

  /** The provider settings of the sidebar form. */
  datatype Config = Config(provider: Provider, apiKey: string, tavilyKey: string)

  /** The body `handleSend` posts to `/chat`. */
  function ChatRequestFor(text: string, sessionId: string, config: Config): (r: ChatRequest)
    ensures r.message == text && r.sessionId == sessionId
    ensures r.openaiApiKey == config.apiKey && r.tavilyApiKey == config.tavilyKey
    ensures r.baseUrl == Some(BaseUrl(config.provider)) && r.model == Some(ModelFor(config.provider))
  {
    ChatRequest(text, sessionId, config.apiKey, config.tavilyKey, Some(BaseUrl(config.provider)), Some(ModelFor(config.provider)))
  }

  /** What `handleExportPDF` does. */
  datatype ExportResult =
    | NothingToExport
    | Downloaded(request: PdfRequest, filename: string)
    | Failed(request: PdfRequest)

  function ExportFor(messages: seq<Message>, sessionId: string, title: string, serverOk: bool): (r: ExportResult)
    ensures r.NothingToExport? <==> messages == []
    ensures !r.NothingToExport? ==> r.request == PdfRequest(sessionId, title, ToDicts(messages))
    ensures !r.NothingToExport? ==> (r.Downloaded? <==> serverOk)
    ensures r.Downloaded? ==> r.filename == title + ".pdf"
  {
    if |messages| == 0 then NothingToExport
    else
      var request := PdfRequest(sessionId, title, ToDicts(messages));
      if serverOk then Downloaded(request, title + ".pdf") else Failed(request)
  }

  /** A request that was sent and whose reply has not arrived: the session
      and the messages `handleSend` closed over. */
  datatype Pending = Pending(sessionId: string, newMessages: seq<Message>)

  class AppState {
    var sessions: Store
    var currentSessionId: string
    var messages: seq<Message>
    var isLoading: bool
    var config: Config
    var pending: seq<Pending>

    /** The loading flag is up exactly while one request is outstanding,
        and there is never more than one. The message box (`Submit`) and the
        guarded quick prompt (`QuickPrompt`) keep it; the quick prompt as
        written (`QuickPromptAsWritten`) does not. */
    ghost predicate AtMostOneInFlight()
      reads this
    {
      |pending| <= 1 && (isLoading <==> |pending| == 1)
    }

    /** `saved` is what the stored JSON parsed to, `None` when nothing was
        stored; `freshId` is the `uuidv4()` of the first render. */
    constructor(saved: Option<Store>, freshId: string)
      ensures sessions == (if saved.Some? then saved.value else map[])
      ensures currentSessionId == freshId && messages == [] && !isLoading
      ensures config == Config(OpenAI, "", "") && pending == []
      ensures AtMostOneInFlight()
    {
      sessions := if saved.Some? then saved.value else map[];
      currentSessionId := freshId;
      messages := [];
      isLoading := false;
      config := Config(OpenAI, "", "");
      pending := [];
    }

    /** `updateCurrentSession` as created for session `sessionId`. */
    method UpdateCurrentSession(sessionId: string, newMessages: seq<Message>, shouldPersist: bool, now: int)
      modifies this
      ensures messages == newMessages
      ensures sessions == (if shouldPersist then Persist(old(sessions), sessionId, newMessages, now) else old(sessions))
      ensures currentSessionId == old(currentSessionId) && isLoading == old(isLoading)
      ensures config == old(config) && pending == old(pending)
    {
      messages := newMessages;
      if shouldPersist {
        var prev := Lookup(sessions, sessionId);
        var title := DeriveTitle(prev, newMessages);
        var timestamp := DeriveTimestamp(prev, now);
        sessions := sessions[sessionId := Session(Some(sessionId), Some(title), Some(timestamp), Some(newMessages), None)];
      }
    }

    /** The effect that shows the current session's messages whenever the
        store or the current id changes, reading a missing `messages` as []. */
    method LoadCurrentMessages()
      modifies this
      ensures messages == LoadMessages(sessions, currentSessionId)
      ensures sessions == old(sessions) && currentSessionId == old(currentSessionId)
      ensures isLoading == old(isLoading) && config == old(config) && pending == old(pending)
    {
      if currentSessionId in sessions {
        var stored := sessions[currentSessionId].messages;
        messages := if stored.Some? then stored.value else [];
      } else {
        messages := [];
      }
    }

    method HandleNewChat(freshId: string)
      modifies this
      ensures currentSessionId == freshId && messages == []
      ensures sessions == old(sessions) && isLoading == old(isLoading)
      ensures config == old(config) && pending == old(pending)
    {
      currentSessionId := freshId;
      messages := [];
    }

    method HandleSelectSession(id: string)
      modifies this
      ensures currentSessionId == id
      ensures sessions == old(sessions) && messages == old(messages) && isLoading == old(isLoading)
      ensures config == old(config) && pending == old(pending)
    {
      currentSessionId := id;
    }

    method HandleUpdateSession(id: string, u: Session)
      modifies this
      ensures sessions == ApplyUpdate(old(sessions), id, u)
      ensures currentSessionId == old(currentSessionId) && messages == old(messages)
      ensures isLoading == old(isLoading) && config == old(config) && pending == old(pending)
    {
      sessions := sessions[id := Merge(Lookup(sessions, id), u)];
    }

    /** `freshId` is the `uuidv4()` drawn when the current session is the
        one deleted. */
    method HandleDeleteSession(id: string, freshId: string)
      modifies this
      ensures sessions == Delete(old(sessions), id)
      ensures id == old(currentSessionId) ==> currentSessionId == freshId && messages == []
      ensures id != old(currentSessionId) ==> currentSessionId == old(currentSessionId) && messages == old(messages)
      ensures id == old(currentSessionId) && freshId !in old(sessions) ==> currentSessionId !in sessions
      ensures isLoading == old(isLoading) && config == old(config) && pending == old(pending)
    {
      var remaining := sessions;
      remaining := remaining - {id};
      sessions := remaining;
      if id == currentSessionId {
        currentSessionId := freshId;
        messages := [];
      }
    }

    /** `confirmed` is the answer to `window.confirm`. */
    method HandleClearHistory(confirmed: bool, freshId: string)
      modifies this
      ensures confirmed ==> sessions == map[] && currentSessionId == freshId && messages == []
      ensures !confirmed ==> sessions == old(sessions) && currentSessionId == old(currentSessionId) && messages == old(messages)
      ensures isLoading == old(isLoading) && config == old(config) && pending == old(pending)
    {
      if confirmed {
        sessions := map[];
        currentSessionId := freshId;
        messages := [];
      }
    }

    method SetConfig(c: Config)
      modifies this
      ensures config == c
      ensures sessions == old(sessions) && currentSessionId == old(currentSessionId) && messages == old(messages)
      ensures isLoading == old(isLoading) && pending == old(pending)
    {
      config := c;
    }

    /** `handleExportPDF(title)`; `serverOk` says whether the `/pdf` call
        succeeded. Nothing in the store changes. */
    method HandleExportPDF(title: string, serverOk: bool) returns (r: ExportResult)
      ensures r == ExportFor(messages, currentSessionId, title, serverOk)
    {
      r := ExportFor(messages, currentSessionId, title, serverOk);
    }

    /** `handleSend(text)` up to its `await`: without both keys nothing
        changes and nothing is sent; otherwise the question is stored and
        shown, the loading flag goes up and the request is outstanding. */
    method BeginSend(text: string, now: int) returns (request: Option<ChatRequest>)
      modifies this
      ensures old(config.apiKey) == "" || old(config.tavilyKey) == "" ==>
        request == None && sessions == old(sessions) && messages == old(messages) &&
        isLoading == old(isLoading) && pending == old(pending)
      ensures old(config.apiKey) != "" && old(config.tavilyKey) != "" ==>
        var asked := old(messages) + [Message("user", text)];
        request == Some(ChatRequestFor(text, old(currentSessionId), old(config))) &&
        messages == asked && sessions == Persist(old(sessions), old(currentSessionId), asked, now) &&
        isLoading && pending == old(pending) + [Pending(old(currentSessionId), asked)]
      ensures currentSessionId == old(currentSessionId) && config == old(config)
    {
      if config.apiKey == "" || config.tavilyKey == "" {
        return None;
      }
      var asked := messages + [Message("user", text)];
      UpdateCurrentSession(currentSessionId, asked, true, now);
      isLoading := true;
      request := Some(ChatRequestFor(text, currentSessionId, config));
      pending := pending + [Pending(currentSessionId, asked)];
    }

    /** The rest of `handleSend` once outstanding request `k` is answered
        with `outcome`: the reply (or the error text) is appended to the
        messages that request closed over, shown and stored in that
        request's session, and the loading flag goes down. */
    method FinishSend(k: nat, outcome: ChatOutcome, now: int)
      requires k < |pending|
      modifies this
      ensures var p := old(pending[k]);
        var answered := p.newMessages + [Message("assistant", ReplyContent(outcome))];
        messages == answered && sessions == Persist(old(sessions), p.sessionId, answered, now)
      ensures !isLoading && pending == old(pending[..k] + pending[k + 1..])
      ensures currentSessionId == old(currentSessionId) && config == old(config)
    {
      var p := pending[k];
      match outcome {
        case Ok(content) =>
          var withAssistant := p.newMessages + [Message("assistant", content)];
          messages := withAssistant;
          UpdateCurrentSession(p.sessionId, withAssistant, true, now);
        case HttpError(status) =>
          var errorMsg := Message("assistant", ErrorPrefix + (HttpErrorText + NatToDecimal(status)));
          assert errorMsg.content == ReplyContent(outcome);
          UpdateCurrentSession(p.sessionId, p.newMessages + [errorMsg], true, now);
        case Thrown(message) =>
          var errorMsg := Message("assistant", ErrorPrefix + message);
          assert errorMsg.content == ReplyContent(outcome);
          UpdateCurrentSession(p.sessionId, p.newMessages + [errorMsg], true, now);
      }
      isLoading := false;
      pending := pending[..k] + pending[k + 1..];
    }

    /** A whole `handleSend` whose reply arrives before anything else
        happens. */
    method HandleSend(text: string, outcome: ChatOutcome, sent: int, answered: int) returns (request: Option<ChatRequest>)
      modifies this
      ensures old(config.apiKey) == "" || old(config.tavilyKey) == "" ==>
        request == None && sessions == old(sessions) && messages == old(messages) && isLoading == old(isLoading)
      ensures old(config.apiKey) != "" && old(config.tavilyKey) != "" ==>
        request == Some(ChatRequestFor(text, old(currentSessionId), old(config))) &&
        messages == old(messages) + [Message("user", text), Message("assistant", ReplyContent(outcome))] &&
        sessions == Exchange(old(sessions), old(currentSessionId), old(messages), text, outcome, sent, answered) &&
        !isLoading
      ensures currentSessionId == old(currentSessionId) && config == old(config) && pending == old(pending)
    {
      request := BeginSend(text, sent);
      if request.Some? {
        FinishSend(|pending| - 1, outcome, answered);
        assert old(messages) + [Message("user", text)] + [Message("assistant", ReplyContent(outcome))]
            == old(messages) + [Message("user", text), Message("assistant", ReplyContent(outcome))];
      }
    }

    /** The user presses send in the message box: the box's guard, given the
        loading flag, decides whether `handleSend` runs. The box is cleared
        whenever its guard passes, even when `handleSend` then stops for a
        missing key. While a reply is outstanding nothing is sent. */
    method Submit(box: InputBox, now: int) returns (request: Option<ChatRequest>)
      requires AtMostOneInFlight()
      modifies this, box
      ensures AtMostOneInFlight()
      ensures !CanSend(old(box.input), old(isLoading)) ==>
        request == None && box.input == old(box.input) && sessions == old(sessions) &&
        messages == old(messages) && isLoading == old(isLoading) && pending == old(pending)
      ensures CanSend(old(box.input), old(isLoading)) ==> box.input == ""
      ensures CanSend(old(box.input), old(isLoading)) && (old(config.apiKey) == "" || old(config.tavilyKey) == "") ==>
        request == None && sessions == old(sessions) && messages == old(messages) && !isLoading && pending == []
      ensures CanSend(old(box.input), old(isLoading)) && old(config.apiKey) != "" && old(config.tavilyKey) != "" ==>
        var asked := old(messages) + [Message("user", old(box.input))];
        request == Some(ChatRequestFor(old(box.input), old(currentSessionId), old(config))) &&
        messages == asked && sessions == Persist(old(sessions), old(currentSessionId), asked, now) &&
        isLoading && pending == [Pending(old(currentSessionId), asked)]
      ensures currentSessionId == old(currentSessionId) && config == old(config)
    {
      var sent := box.HandleSend(isLoading);
      if sent.Some? {
        assert !isLoading && pending == [];
        request := BeginSend(sent.value, now);
      } else {
        request := None;
      }
    }

    /** A reply arrives for the one outstanding request: it is appended to
        the messages that request closed over, shown and stored under its
        session. */
    method Receive(outcome: ChatOutcome, now: int)
      requires AtMostOneInFlight() && isLoading
      modifies this
      ensures AtMostOneInFlight() && !isLoading && pending == []
      ensures var p := old(pending[0]);
        var answered := p.newMessages + [Message("assistant", ReplyContent(outcome))];
        messages == answered && sessions == Persist(old(sessions), p.sessionId, answered, now)
      ensures currentSessionId == old(currentSessionId) && config == old(config)
    {
      FinishSend(0, outcome, now);
    }

    /** A quick-prompt card of the welcome screen, which is shown while no
        messages are displayed: it calls `handleSend(prompt)` without
        looking at the loading flag, so a second request can start while the
        first is outstanding. */
    method QuickPromptAsWritten(prompt: string, now: int) returns (request: Option<ChatRequest>)
      requires messages == []
      modifies this
      ensures old(config.apiKey) == "" || old(config.tavilyKey) == "" ==>
        request == None && sessions == old(sessions) && messages == old(messages) &&
        isLoading == old(isLoading) && pending == old(pending)
      ensures old(config.apiKey) != "" && old(config.tavilyKey) != "" ==>
        request == Some(ChatRequestFor(prompt, old(currentSessionId), old(config))) &&
        messages == [Message("user", prompt)] &&
        sessions == Persist(old(sessions), old(currentSessionId), [Message("user", prompt)], now) &&
        isLoading && pending == old(pending) + [Pending(old(currentSessionId), [Message("user", prompt)])]
      ensures currentSessionId == old(currentSessionId) && config == old(config)
    {
      request := BeginSend(prompt, now);
      assert old(messages) + [Message("user", prompt)] == [Message("user", prompt)];
    }

    /** The quick prompt under the message box's loading guard: while a
        reply is outstanding it sends nothing and changes nothing. */
    method QuickPrompt(prompt: string, now: int) returns (request: Option<ChatRequest>)
      requires AtMostOneInFlight() && messages == []
      modifies this
      ensures AtMostOneInFlight()
      ensures old(isLoading) ==>
        request == None && sessions == old(sessions) && messages == old(messages) && isLoading && pending == old(pending)
      ensures !old(isLoading) && (old(config.apiKey) == "" || old(config.tavilyKey) == "") ==>
        request == None && sessions == old(sessions) && messages == old(messages) && !isLoading && pending == []
      ensures !old(isLoading) && old(config.apiKey) != "" && old(config.tavilyKey) != "" ==>
        request == Some(ChatRequestFor(prompt, old(currentSessionId), old(config))) &&
        messages == [Message("user", prompt)] &&
        sessions == Persist(old(sessions), old(currentSessionId), [Message("user", prompt)], now) &&
        isLoading && pending == [Pending(old(currentSessionId), [Message("user", prompt)])]
      ensures currentSessionId == old(currentSessionId) && config == old(config)
    {
      if isLoading {
        return None;
      }
      request := QuickPromptAsWritten(prompt, now);
    }
  }

  /** A question is sent, New Chat is pressed before the reply arrives, and
      a quick prompt is clicked on the now empty welcome screen. When the
      first reply arrives, its `finally` lowers the loading flag although the
      quick prompt's request is still outstanding. */
  method QuickPromptDuringReply() returns (outstanding: nat, loading: bool)
    ensures outstanding == 1 && !loading
  {
    var app := new AppState(None, "first");
    app.SetConfig(Config(OpenAI, "sk", "tvly"));
    var asked := app.BeginSend("question", 1);
    app.HandleNewChat("second");
    var prompted := app.QuickPromptAsWritten("prompt", 2);
    assert |app.pending| == 2;
    app.FinishSend(0, ChatOutcome.Ok("answer"), 3);
    outstanding, loading := |app.pending|, app.isLoading;
  }
}
