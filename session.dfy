// The chat session as a pure state machine: one function per handler and
// effect of App.tsx. These functions are the specification the class in
// app.dfy is proved against, and the lemmas below state what the handlers
// promise.
module ChatSession {
  import opened Types
  import opened JsText
  import opened History
  import opened Streaming

  const InitErrorText: string :=
    "Failed to initialize AI chat. Please check your API key and refresh the page."
  const StreamErrorText: string :=
    "An error occurred while fetching the response. Please try again."

  /**
   * What the storage slot under the chat-history key can hold: an empty
   * string, the JSON text of a message list, or text JSON.parse rejects.
   */
  datatype Blob = BlankText | Json(saved: seq<Message>) | Unparsable

  /** A chat handle; the only part of it the client decides is its starting history. */
  datatype ChatHandle = ChatHandle(history: seq<Content>)

  /** The three Date.now() readings of one send: user message, placeholder, error message. */
  datatype Stamps = Stamps(user: nat, ai: nat, error: nat)

  /**
   * Everything the component keeps: the configured key, the message list, the
   * loading flag, the error banner, the chat handle, the shadow of the previous
   * loading flag, the storage slot, and the number of storage writes so far.
   */
  datatype State = State(
    apiKey: bool,
    messages: seq<Message>,
    isLoading: bool,
    error: Option<string>,
    chat: Option<ChatHandle>,
    prevIsLoading: bool,
    store: Option<Blob>,
    saveCount: nat)

  function UserId(t: nat): string { "user-" + Decimal(t) }
  function AiId(t: nat): string { "ai-" + Decimal(t) }
  function ErrorId(t: nat): string { "error-" + Decimal(t) }

  /** The three id families never collide, and within a family the timestamp decides the id. */
  lemma IdsDistinct(a: nat, b: nat)
    ensures UserId(a) != AiId(b) && UserId(a) != ErrorId(b) && AiId(a) != ErrorId(b)
    ensures UserId(a) == UserId(b) ==> a == b
    ensures AiId(a) == AiId(b) ==> a == b
    ensures ErrorId(a) == ErrorId(b) ==> a == b
  {
    assert UserId(a)[0] == 'u' && AiId(b)[0] == 'a' && ErrorId(b)[0] == 'e';
    assert AiId(a)[0] == 'a';
    if UserId(a) == UserId(b) {
      assert Decimal(a) == UserId(a)[5..] == UserId(b)[5..] == Decimal(b);
      DecimalInjective(a, b);
    }
    if AiId(a) == AiId(b) {
      assert Decimal(a) == AiId(a)[3..] == AiId(b)[3..] == Decimal(b);
      DecimalInjective(a, b);
    }
    if ErrorId(a) == ErrorId(b) {
      assert Decimal(a) == ErrorId(a)[6..] == ErrorId(b)[6..] == Decimal(b);
      DecimalInjective(a, b);
    }
  }

  /** The state before the first effect runs: the useState/useRef initial values. */
  function Initial(apiKey: bool, stored: Option<Blob>): State
  {
    State(apiKey, [], false, None, None, false, stored, 0)
  }

  /** What reading and parsing the slot gives. */
  datatype Loaded = Nothing | Loaded(messages: seq<Message>) | ParseError

  /** localStorage.getItem followed by JSON.parse when the text is non-empty. */
  function Load(slot: Option<Blob>): (l: Loaded)
    ensures l.ParseError? <==> slot == Some(Unparsable)
    ensures l.Nothing? <==> slot == None || slot == Some(BlankText)
  {
    match slot
    case None => Nothing
    case Some(BlankText) => Nothing
    case Some(Json(ms)) => Loaded(ms)
    case Some(Unparsable) => ParseError
  }

  /** JSON.stringify of the list, as written to the slot. */
  function Save(ms: seq<Message>): Blob
  {
    Json(ms)
  }

  /** Writing a list and reading it back gives the same list. */
  lemma SaveLoadRoundTrip(ms: seq<Message>)
    ensures Load(Some(Save(ms))) == Loaded(ms)
  {
  }

  /**
   * startNewChat: without a key only the error banner is set; otherwise a
   * handle with empty history replaces the old one, the list is emptied and the
   * banner cleared.
   */
  function StartNewChat(s: State): (r: State)
    ensures !s.apiKey ==> r == s.(error := Some(InitErrorText))
    ensures s.apiKey ==> r.messages == [] && r.error == None && r.chat == Some(ChatHandle([]))
    ensures r.isLoading == s.isLoading && r.prevIsLoading == s.prevIsLoading
    ensures r.store == s.store && r.saveCount == s.saveCount && r.apiKey == s.apiKey
  {
    if !s.apiKey then s.(error := Some(InitErrorText))
    else s.(chat := Some(ChatHandle([])), messages := [], error := None)
  }

  /**
   * The mount effect: a non-empty stored list becomes the message list and is
   * replayed as the new handle's history; an unparsable slot sets the banner;
   * anything else starts an empty chat.
   */
  function Startup(s: State): (r: State)
    ensures !s.apiKey ==> r == s.(error := Some(InitErrorText))
    ensures s.apiKey && Load(s.store).ParseError? ==> r == s.(error := Some(InitErrorText))
    ensures s.apiKey && Load(s.store).Loaded? && |Load(s.store).messages| > 0 ==>
      r == s.(messages := Load(s.store).messages,
              chat := Some(ChatHandle(ToHistory(Load(s.store).messages))))
    ensures s.apiKey && (Load(s.store).Nothing? || Load(s.store) == Loaded([])) ==>
      r == StartNewChat(s)
  {
    if !s.apiKey then s.(error := Some(InitErrorText))
    else
      match Load(s.store)
      case ParseError => s.(error := Some(InitErrorText))
      case Loaded(saved) =>
        if |saved| > 0 then s.(messages := saved, chat := Some(ChatHandle(ToHistory(saved))))
        else StartNewChat(s)
      case Nothing => StartNewChat(s)
  }

  /** handleClearChat: ignored while loading; otherwise drop the slot and start a new chat. */
  function ClearChat(s: State): (r: State)
    ensures s.isLoading ==> r == s
    ensures !s.isLoading ==> r.store == None && r.isLoading == s.isLoading && r.saveCount == s.saveCount
    ensures !s.isLoading ==> r.prevIsLoading == s.prevIsLoading && r.apiKey == s.apiKey
    ensures !s.isLoading && s.apiKey ==>
      r.messages == [] && r.error == None && r.chat == Some(ChatHandle([]))
    ensures !s.isLoading && !s.apiKey ==>
      r.messages == s.messages && r.chat == s.chat && r.error == Some(InitErrorText)
  {
    if s.isLoading then s else StartNewChat(s.(store := None))
  }

  /** True exactly on the render where loading has just gone from true to false with messages to keep. */
  predicate TurnEnded(s: State)
  {
    s.prevIsLoading && !s.isLoading && |s.messages| > 0
  }

  /** The persistence effect: write the list on the turn's end, then remember the loading flag. */
  function PersistEffect(s: State): (r: State)
    ensures r.prevIsLoading == s.isLoading
    ensures TurnEnded(s) ==> r.store == Some(Save(s.messages)) && r.saveCount == s.saveCount + 1
    ensures !TurnEnded(s) ==> r.store == s.store && r.saveCount == s.saveCount
    ensures r.messages == s.messages && r.isLoading == s.isLoading && r.error == s.error
    ensures r.chat == s.chat && r.apiKey == s.apiKey
  {
    var s' := if TurnEnded(s) then s.(store := Some(Save(s.messages)), saveCount := s.saveCount + 1) else s;
    s'.(prevIsLoading := s.isLoading)
  }

  /** Between handler calls the shadow flag equals the loading flag, and then the effect changes nothing. */
  lemma PersistIdleNoOp(s: State)
    requires s.prevIsLoading == s.isLoading
    ensures PersistEffect(s) == s
  {
  }

  /** Nothing is written while a reply is loading. */
  lemma NoWriteWhileLoading(s: State)
    requires s.isLoading
    ensures PersistEffect(s).store == s.store && PersistEffect(s).saveCount == s.saveCount
  {
  }

  /** Running the effect again without a state change writes nothing more: one write per edge. */
  lemma PersistOncePerEdge(s: State)
    ensures PersistEffect(PersistEffect(s)) == PersistEffect(s)
  {
  }

  /** handleSendMessage's guard: non-blank input, no send in flight, a handle exists. */
  predicate Accepts(s: State, input: string)
  {
    Trim(input) != [] && !s.isLoading && s.chat.Some?
  }

  function UserMessage(input: string, t: nat): Message
  {
    Message(UserId(t), input, User)
  }

  function ErrorMessage(t: nat): Message
  {
    Message(ErrorId(t), StreamErrorText, AI)
  }

  /**
   * The messages a send appends after the user's: the error message alone when
   * the request is rejected; otherwise the AI message holding every chunk
   * received, followed by the error message when the stream broke.
   */
  function ReplyMessages(reply: Reply, st: Stamps): (r: seq<Message>)
    ensures reply.Rejected? ==> r == [ErrorMessage(st.error)]
    ensures reply.Stream? ==> |r| > 0 && r[0] == Message(AiId(st.ai), Concat(reply.chunks), AI)
    ensures reply.Stream? ==> (|r| == 2 <==> reply.end == Broken) && (|r| == 1 <==> reply.end == Done)
    ensures reply.Failed() ==> r[|r| - 1] == ErrorMessage(st.error)
  {
    match reply
    case Rejected => [ErrorMessage(st.error)]
    case Stream(chunks, end) =>
      [Message(AiId(st.ai), Concat(chunks), AI)] + (if end == Broken then [ErrorMessage(st.error)] else [])
  }

  /**
   * The state once handleSendMessage has finished and its last render's effect
   * has run.
   */
  function Send(s: State, input: string, reply: Reply, st: Stamps): (r: State)
    ensures !Accepts(s, input) ==> r == s
    ensures Accepts(s, input) ==>
      && |r.messages| == |s.messages| + 1 + |ReplyMessages(reply, st)|
      && r.messages[..|s.messages|] == s.messages
      && r.messages[|s.messages|] == UserMessage(input, st.user)
      && r.messages[|s.messages| + 1..] == ReplyMessages(reply, st)
      && !r.isLoading && !r.prevIsLoading
      && r.error == (if reply.Failed() then Some(StreamErrorText) else None)
      && r.store == Some(Save(r.messages)) && r.saveCount == s.saveCount + 1
      && r.chat == s.chat && r.apiKey == s.apiKey
  {
    if !Accepts(s, input) then s
    else
      var ms := s.messages + [UserMessage(input, st.user)] + ReplyMessages(reply, st);
      s.(messages := ms, isLoading := false, prevIsLoading := false,
         error := if reply.Failed() then Some(StreamErrorText) else None,
         store := Some(Save(ms)), saveCount := s.saveCount + 1)
  }

  /** Helper for AppModel: a state whose fields are those of an accepted send is that send's result. */
  lemma SendFromFields(s: State, input: string, reply: Reply, st: Stamps, r: State)
    requires Accepts(s, input)
    requires r.messages == s.messages + [UserMessage(input, st.user)] + ReplyMessages(reply, st)
    requires !r.isLoading && !r.prevIsLoading
    requires r.error == (if reply.Failed() then Some(StreamErrorText) else None)
    requires r.store == Some(Save(r.messages)) && r.saveCount == s.saveCount + 1
    requires r.chat == s.chat && r.apiKey == s.apiKey
    ensures r == Send(s, input, reply, st)
  {
  }

  /** A send changes nothing exactly when its guard refuses it. */
  lemma SendNoOpIffRefused(s: State, input: string, reply: Reply, st: Stamps)
    ensures Send(s, input, reply, st) == s <==> !Accepts(s, input)
  {
    if Accepts(s, input) {
      assert |Send(s, input, reply, st).messages| > |s.messages|;
    }
  }

  /** A blank input is refused whatever the rest of the state. */
  lemma BlankInputRefused(s: State, input: string, reply: Reply, st: Stamps)
    requires AllWhitespace(input)
    ensures Send(s, input, reply, st) == s
  {
    TrimEmptyIffAllWhitespace(input);
  }

  /** A rejected request never shows a placeholder: the user message is followed by the error message only. */
  lemma RejectedAppendsOnlyError(s: State, input: string, st: Stamps)
    requires Accepts(s, input)
    ensures Send(s, input, Rejected, st).messages
         == s.messages + [UserMessage(input, st.user), ErrorMessage(st.error)]
    ensures Send(s, input, Rejected, st).error == Some(StreamErrorText)
  {
  }

  /** A completed stream leaves the AI message holding c1 + ... + ck, with no error. */
  lemma CompletedStreamText(s: State, input: string, chunks: seq<string>, st: Stamps)
    requires Accepts(s, input)
    ensures Send(s, input, Stream(chunks, Done), st).messages
         == s.messages + [UserMessage(input, st.user), Message(AiId(st.ai), Concat(chunks), AI)]
    ensures Send(s, input, Stream(chunks, Done), st).error == None
  {
  }

  /**
   * A stream that breaks keeps the partly filled AI message and appends a
   * separate AI message carrying the error text, which is also the banner.
   */
  lemma BrokenStreamKeepsPartial(s: State, input: string, chunks: seq<string>, st: Stamps)
    requires Accepts(s, input)
    ensures Send(s, input, Stream(chunks, Broken), st).messages
         == s.messages + [UserMessage(input, st.user), Message(AiId(st.ai), Concat(chunks), AI),
                          Message(ErrorId(st.error), StreamErrorText, AI)]
    ensures Send(s, input, Stream(chunks, Broken), st).error == Some(StreamErrorText)
  {
  }

  /** The list a finished turn writes comes back, and is replayed, on the next page load. */
  lemma ReloadAfterSend(s: State, input: string, reply: Reply, st: Stamps)
    requires Accepts(s, input) && s.apiKey
    ensures var r := Send(s, input, reply, st);
      var back := Startup(Initial(s.apiKey, r.store));
      back.messages == r.messages && back.chat == Some(ChatHandle(ToHistory(r.messages)))
  {
  }

  /** Clearing twice is the same as clearing once. */
  lemma ClearIdempotent(s: State)
    ensures ClearChat(ClearChat(s)) == ClearChat(s)
  {
  }

  /** After a clear the slot is empty, so the next page load starts an empty chat. */
  lemma ReloadAfterClear(s: State)
    requires !s.isLoading && s.apiKey
    ensures var back := Startup(Initial(s.apiKey, ClearChat(s).store));
      back.messages == [] && back.chat == Some(ChatHandle([])) && back.error == None
  {
  }
}
