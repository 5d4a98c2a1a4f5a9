// The App component as an object: its React state and refs are fields, its
// handlers and effects are methods that update them step by step. Each method
// is proved against the matching function of ChatSession.
module AppModel {
  import opened Types
  import opened JsText
  import opened History
  import opened Streaming
  import opened ChatSession

  class App {
    /** Whether process.env.API_KEY is set. */
    const apiKey: bool
    var messages: seq<Message>
    var isLoading: bool
    var error: Option<string>
    /** chatRef.current: None stands for null. */
    var chat: Option<ChatHandle>
    /** prevIsLoadingRef.current */
    var prevIsLoading: bool
    /** The localStorage entry under the chat-history key. */
    var store: Option<Blob>
    /** How many times that entry has been written. */
    ghost var saveCount: nat

    /** The component's state as a value. */
    ghost function Current(): State
      reads this
    {
      State(apiKey, messages, isLoading, error, chat, prevIsLoading, store, saveCount)
    }

    /**
     * Between handler calls the shadow flag has caught up with the loading
     * flag, so the persistence effect after a render that leaves the loading
     * flag alone writes nothing (ChatSession.PersistIdleNoOp).
     */
    ghost predicate Valid()
      reads this
    {
      prevIsLoading == isLoading
    }

    /** Mounting the component: initial state, then the startup effect. */
    constructor (apiKey: bool, stored: Option<Blob>)
      ensures Valid()
      ensures Current() == Startup(Initial(apiKey, stored))
    {
      this.apiKey := apiKey;
      messages := [];
      isLoading := false;
      error := None;
      chat := None;
      prevIsLoading := false;
      store := stored;
      saveCount := 0;
      new;
      StartupEffect();
    }

    /** The mount effect: replay a stored conversation or start a new chat. */
    method StartupEffect()
      modifies this
      ensures Current() == Startup(old(Current()))
    {
      if !apiKey {
        error := Some(InitErrorText);
        return;
      }
      var loaded := Load(store);
      if loaded.ParseError? {
        error := Some(InitErrorText);
        return;
      }
      if loaded.Loaded? && |loaded.messages| > 0 {
        messages := loaded.messages;
        chat := Some(ChatHandle(ToHistory(loaded.messages)));
        return;
      }
      StartNewChat();
    }

    method StartNewChat()
      modifies this
      ensures Current() == ChatSession.StartNewChat(old(Current()))
    {
      if !apiKey {
        error := Some(InitErrorText);
        return;
      }
      chat := Some(ChatHandle([]));
      messages := [];
      error := None;
    }

    method HandleClearChat()
      requires Valid()
      modifies this
      ensures Valid()
      ensures Current() == ClearChat(old(Current()))
    {
      if isLoading {
        return;
      }
      store := None;
      StartNewChat();
    }

    /** The persistence effect, run after every render. */
    method PersistEffect()
      modifies this
      ensures Current() == ChatSession.PersistEffect(old(Current()))
    {
      if prevIsLoading && !isLoading && |messages| > 0 {
        store := Some(Save(messages));
        saveCount := saveCount + 1;
      }
      prevIsLoading := isLoading;
    }

    /**
     * One chunk's state update: the updater rewrites the placeholder, and the
     * render that follows runs the persistence effect, which writes nothing
     * while loading.
     */
    method ApplyChunkUpdate(aiMessageId: string, text: string)
      requires |messages| > 0 && isLoading && prevIsLoading
      modifies this
      ensures messages == UpdateLast(old(messages), aiMessageId, text)
      ensures isLoading && prevIsLoading
      ensures error == old(error) && store == old(store) && saveCount == old(saveCount) && chat == old(chat)
    {
      messages := UpdateLast(messages, aiMessageId, text);
      PersistEffect();
    }

    /**
     * The `for await` loop of handleSendMessage: each chunk extends the running
     * text, the updater rewrites the placeholder with it, and the resulting
     * render runs the persistence effect, which writes nothing while loading.
     */
    method ConsumeStream(chunks: seq<string>, aiMessageId: string) returns (ghost frames: seq<seq<Message>>)
      requires |messages| > 0 && messages[|messages| - 1] == Message(aiMessageId, "", AI)
      requires isLoading && prevIsLoading
      modifies this
      ensures messages == AfterChunks(old(messages)[..|old(messages)| - 1], aiMessageId, chunks, |chunks|)
      ensures isLoading == old(isLoading) && prevIsLoading == old(prevIsLoading) && error == old(error)
      ensures store == old(store) && saveCount == old(saveCount) && chat == old(chat)
      ensures |frames| == |chunks|
      ensures forall k :: 0 <= k < |frames| ==>
        frames[k] == AfterChunks(old(messages)[..|old(messages)| - 1], aiMessageId, chunks, k + 1)
    {
      ghost var earlier := messages[..|messages| - 1];
      assert messages == AfterChunks(earlier, aiMessageId, chunks, 0);
      frames := [];
      var aiResponseText := "";
      var i := 0;
      while i < |chunks|
        invariant 0 <= i <= |chunks|
        invariant aiResponseText == Concat(chunks[..i])
        invariant messages == AfterChunks(earlier, aiMessageId, chunks, i)
        invariant isLoading && prevIsLoading
        invariant error == old(error) && store == old(store) && saveCount == old(saveCount) && chat == old(chat)
        invariant |frames| == i
        invariant forall k :: 0 <= k < i ==> frames[k] == AfterChunks(earlier, aiMessageId, chunks, k + 1)
      {
        AfterChunksStep(earlier, aiMessageId, chunks, i);
        aiResponseText := aiResponseText + chunks[i];
        ApplyChunkUpdate(aiMessageId, aiResponseText);
        frames := frames + [messages];
        i := i + 1;
      }
    }

    /**
     * The synchronous start of an accepted send: append the user's message,
     * raise the loading flag, clear the banner; the render that follows runs
     * the persistence effect.
     */
    method BeginTurn(userMessage: Message)
      modifies this
      ensures messages == old(messages) + [userMessage]
      ensures isLoading && prevIsLoading && error == None
      ensures store == old(store) && saveCount == old(saveCount) && chat == old(chat)
    {
      messages := messages + [userMessage];
      isLoading := true;
      error := None;
      PersistEffect();
    }

    /**
     * The try/catch of a send: on a stream, append the empty placeholder and
     * consume the chunks; when the request is rejected or the stream breaks,
     * set the banner and append the error message.
     */
    method ReceiveReply(reply: Reply, st: Stamps) returns (ghost frames: seq<seq<Message>>)
      requires isLoading && prevIsLoading && error == None
      modifies this
      ensures messages == old(messages) + ReplyMessages(reply, st)
      ensures isLoading && prevIsLoading
      ensures error == (if reply.Failed() then Some(StreamErrorText) else None)
      ensures store == old(store) && saveCount == old(saveCount) && chat == old(chat)
      ensures reply.Stream? ==>
        |frames| == |reply.chunks| + 1 &&
        forall k :: 0 <= k < |frames| ==> frames[k] == AfterChunks(old(messages), AiId(st.ai), reply.chunks, k)
    {
      frames := [];
      match reply {
        case Rejected =>
          error := Some(StreamErrorText);
          messages := messages + [ErrorMessage(st.error)];
        case Stream(chunks, end) =>
          var aiMessageId := AiId(st.ai);
          messages := messages + [Message(aiMessageId, "", AI)];
          PersistEffect();
          ghost var earlier := messages[..|messages| - 1];
          assert earlier == old(messages);
          assert messages == AfterChunks(old(messages), aiMessageId, chunks, 0);
          ghost var placeholderShown := messages;
          ghost var streamed := ConsumeStream(chunks, aiMessageId);
          frames := [placeholderShown] + streamed;
          assert chunks[..|chunks|] == chunks;
          if end == Broken {
            error := Some(StreamErrorText);
            messages := messages + [ErrorMessage(st.error)];
          }
      }
    }

    /** The finally block: drop the loading flag; that render's effect writes the list. */
    method EndTurn()
      requires isLoading && prevIsLoading && |messages| > 0
      modifies this
      ensures !isLoading && !prevIsLoading
      ensures store == Some(Save(messages)) && saveCount == old(saveCount) + 1
      ensures messages == old(messages) && error == old(error) && chat == old(chat)
    {
      isLoading := false;
      PersistEffect();
    }

    /**
     * The body of handleSendMessage past its guard: the user's message, the
     * reply, and the finally block, with its effect's single write.
     */
    method RunTurn(input: string, reply: Reply, st: Stamps) returns (ghost frames: seq<seq<Message>>)
      requires !isLoading
      modifies this
      ensures messages == old(messages) + [UserMessage(input, st.user)] + ReplyMessages(reply, st)
      ensures !isLoading && !prevIsLoading
      ensures error == (if reply.Failed() then Some(StreamErrorText) else None)
      ensures store == Some(Save(messages)) && saveCount == old(saveCount) + 1 && chat == old(chat)
      ensures reply.Stream? ==>
        |frames| == |reply.chunks| + 1 &&
        forall k :: 0 <= k < |frames| ==>
          frames[k] == AfterChunks(old(messages) + [UserMessage(input, st.user)], AiId(st.ai), reply.chunks, k)
    {
      var userMessage := Message(UserId(st.user), input, User);
      BeginTurn(userMessage);
      frames := ReceiveReply(reply, st);
      EndTurn();
    }

    /**
     * handleSendMessage, with each await taken as a sequential step and the
     * persistence effect run at every render the handler causes. `frames` is
     * the message list rendered once the empty placeholder is appended and
     * then after each chunk, in arrival order.
     */
    method HandleSendMessage(input: string, reply: Reply, st: Stamps) returns (ghost frames: seq<seq<Message>>)
      requires Valid()
      modifies this
      ensures Valid()
      ensures Current() == Send(old(Current()), input, reply, st)
      ensures Accepts(old(Current()), input) && reply.Stream? ==>
        |frames| == |reply.chunks| + 1 &&
        forall k :: 0 <= k < |frames| ==>
          frames[k] == AfterChunks(old(messages) + [UserMessage(input, st.user)], AiId(st.ai), reply.chunks, k)
    {
      frames := [];
      if Trim(input) == [] || isLoading || chat.None? {
        return;
      }
      ghost var s0 := Current();
      assert Accepts(s0, input);
      frames := RunTurn(input, reply, st);
      SendFromFields(s0, input, reply, st, Current());
    }
  }
}
