/** The state behind the chat page: the id of the open conversation (none
    until its first exchange is saved) and its message history, driven by
    sending a message, starting a new chat, loading a stored one and deleting
    one.  The orchestrator that answers a message is a parameter; the page's
    rendering and notifications are not modelled. */
module ChatSession {
  import opened Records
  import opened Text
  import opened Storage
  import opened ToolCalling

  /** The page's two pieces of state. */
  datatype Session = Session(chatId: Option<string>, history: seq<ChatMessage>)

  /** The answer to a history; `Raised` is an exception out of the call. */
  type Orchestrator = seq<ChatMessage> -> Outcome<TurnResult>

  function UnexpectedErrorText(e: string): string
  {
    "Erro inesperado ao consultar a base de conhecimento: " + e
  }

  /** What the page makes of the orchestrator's outcome: an exception becomes
      an error answer with no sources. */
  function Answer(o: Outcome<TurnResult>): TurnResult
  {
    match o
    case Done(t) => t
    case Raised(e) => TurnResult(UnexpectedErrorText(e), [], false, false)
  }

  /** A send that starts a new conversation is refused at the chat cap. */
  predicate SendRefused(s: Session, chats: seq<Chat>)
  {
    s.chatId.None? && s.history == [] && |chats| >= MaxChats
  }

  /** `send`: the page state and the chat table after one message. */
  function SendSpec(s: Session, chats: seq<Chat>, input: string, orchestrate: Orchestrator,
                    newId: string, now: string): (Session, seq<Chat>)
  {
    var text := Strip(input);
    if text == [] || SendRefused(s, chats) then (s, chats)
    else
      var asked := s.history + [ChatMessage("user", text, [])];
      var a := Answer(orchestrate(asked));
      var history := asked + [ChatMessage("assistant", a.answer, a.sources)];
      match s.chatId
      case None =>
        var (saved, c) := SaveChatSpec(chats, newId, now, Take(history[0].content, TitleLength), history);
        (Session(if c.Some? then Some(c.value.id) else None, history), saved)
      case Some(id) => (Session(s.chatId, history), UpdatedChats(chats, id, history, None, now))
  }

  /** A blank message changes nothing, and neither does one refused at the cap. */
  lemma SendIgnored(s: Session, chats: seq<Chat>, input: string, orchestrate: Orchestrator,
                    newId: string, now: string)
    requires Strip(input) == [] || SendRefused(s, chats)
    ensures SendSpec(s, chats, input, orchestrate, newId, now) == (s, chats)
  {
  }

  /** A completed send appends the stripped user text and then the answer
      with its sources, the answer to exactly that longer history (an
      exception read as an error answer with no sources and both flags false). */
  lemma SendAppendsExchange(s: Session, chats: seq<Chat>, input: string, orchestrate: Orchestrator,
                            newId: string, now: string)
    requires Strip(input) != [] && !SendRefused(s, chats)
    ensures var (s', _) := SendSpec(s, chats, input, orchestrate, newId, now);
      var asked := s.history + [ChatMessage("user", Strip(input), [])];
      && |s'.history| == |s.history| + 2
      && s'.history[..|s.history| + 1] == asked
      && s'.history[|s.history| + 1].role == "assistant"
      && (orchestrate(asked).Done? ==>
            && s'.history[|s.history| + 1].content == orchestrate(asked).value.answer
            && s'.history[|s.history| + 1].sources == orchestrate(asked).value.sources)
      && (orchestrate(asked).Raised? ==>
            && s'.history[|s.history| + 1].content == UnexpectedErrorText(orchestrate(asked).error)
            && s'.history[|s.history| + 1].sources == [])
  {
    var asked := s.history + [ChatMessage("user", Strip(input), [])];
    var a := Answer(orchestrate(asked));
    var history := asked + [ChatMessage("assistant", a.answer, a.sources)];
    assert history[..|s.history| + 1] == asked;
  }

  /** The first answered send of an unsaved conversation saves it, titled by
      its first message cut to 50 characters, and binds the page to the new
      chat; when the table is full nothing is saved and the page stays unbound. */
  lemma SendFirstSave(s: Session, chats: seq<Chat>, input: string, orchestrate: Orchestrator,
                      newId: string, now: string)
    requires Strip(input) != [] && !SendRefused(s, chats) && s.chatId.None?
    ensures var (s', chats') := SendSpec(s, chats, input, orchestrate, newId, now);
      && (|chats| < MaxChats ==>
            && s'.chatId == Some(newId)
            && chats' == chats + [Chat(newId, Take(s'.history[0].content, TitleLength), s'.history, now, now)])
      && (|chats| >= MaxChats ==> s'.chatId.None? && chats' == chats)
  {
    var asked := s.history + [ChatMessage("user", Strip(input), [])];
    var a := Answer(orchestrate(asked));
    var history := asked + [ChatMessage("assistant", a.answer, a.sources)];
    assert Take(Take(history[0].content, TitleLength), TitleLength) == Take(history[0].content, TitleLength);
  }

  /** Once the page is bound to a chat, a send rewrites that chat's messages
      with the whole history and creates no chat. */
  lemma SendUpdatesOpenChat(s: Session, chats: seq<Chat>, input: string, orchestrate: Orchestrator,
                            newId: string, now: string)
    requires Strip(input) != [] && s.chatId.Some?
    ensures var (s', chats') := SendSpec(s, chats, input, orchestrate, newId, now);
      && s'.chatId == s.chatId
      && chats' == UpdatedChats(chats, s.chatId.value, s'.history, None, now)
      && |chats'| == |chats|
  {
  }

  /** The open conversation is the one stored: the first chat with the page's
      id holds exactly the page's history. */
  predicate Synced(s: Session, chats: seq<Chat>)
  {
    s.chatId.Some? ==>
      match FirstIndex(chats, ChatId, s.chatId.value)
      case None => false
      case Some(i) => chats[i].messages == s.history
  }

  /** A send keeps the page and the table in step, when a new chat gets an id
      no stored chat has. */
  lemma SendKeepsSynced(s: Session, chats: seq<Chat>, input: string, orchestrate: Orchestrator,
                        newId: string, now: string)
    requires Synced(s, chats)
    requires forall j :: 0 <= j < |chats| ==> chats[j].id != newId
    ensures var (s', chats') := SendSpec(s, chats, input, orchestrate, newId, now);
      Synced(s', chats')
  {
    var (s', chats') := SendSpec(s, chats, input, orchestrate, newId, now);
    if Strip(input) != [] && !SendRefused(s, chats) {
      match s.chatId
      case None =>
        if |chats| < MaxChats {
          FirstIndexAt(chats', ChatId, newId, |chats|);
        }
      case Some(id) =>
        var i := FirstIndex(chats, ChatId, id).value;
        FirstIndexAt(chats', ChatId, id, i);
    }
  }

  /** `handle_new_chat`: at the cap nothing changes; otherwise the page is
      unbound and emptied. */
  function NewChatSpec(s: Session, chats: seq<Chat>): Session
  {
    if |chats| >= MaxChats then s else Session(None, [])
  }

  /** Below the cap a new chat leaves the page unbound and empty, so the next
      non-blank send starts and saves a conversation of its own; at the cap
      the page is left as it was. */
  lemma NewChatThenSend(s: Session, chats: seq<Chat>, input: string, orchestrate: Orchestrator,
                        newId: string, now: string)
    ensures |chats| >= MaxChats ==> NewChatSpec(s, chats) == s
    ensures |chats| < MaxChats && Strip(input) != [] ==>
      var (s', chats') := SendSpec(NewChatSpec(s, chats), chats, input, orchestrate, newId, now);
      && s'.chatId == Some(newId) && |s'.history| == 2
      && s'.history[0] == ChatMessage("user", Strip(input), [])
      && |chats'| == |chats| + 1 && chats'[..|chats|] == chats
  {
    if |chats| < MaxChats && Strip(input) != [] {
      SendFirstSave(Session(None, []), chats, input, orchestrate, newId, now);
      SendAppendsExchange(Session(None, []), chats, input, orchestrate, newId, now);
    }
  }

  /** `load_conversation`: a missing chat changes nothing; otherwise the page
      is bound to the first chat with the id and shows its messages. */
  function LoadSpec(s: Session, chats: seq<Chat>, id: string): Session
  {
    match FirstIndex(chats, ChatId, id)
    case None => s
    case Some(i) => Session(Some(chats[i].id), chats[i].messages)
  }

  /** Loading a stored chat binds the page to it, in step with the table; a
      missing one leaves the page as it was. */
  lemma LoadSyncs(s: Session, chats: seq<Chat>, id: string)
    ensures (forall j :: 0 <= j < |chats| ==> chats[j].id != id) ==> LoadSpec(s, chats, id) == s
    ensures (exists j :: 0 <= j < |chats| && chats[j].id == id) ==>
              LoadSpec(s, chats, id).chatId == Some(id) && Synced(LoadSpec(s, chats, id), chats)
  {
  }

  /** `do_delete`: the page is reset only when the deleted chat is the open one. */
  function DeleteSpec(s: Session, id: string): Session
  {
    if s.chatId == Some(id) then Session(None, []) else s
  }

  /** Deleting a chat keeps the page in step with the table. */
  lemma DeleteKeepsSynced(s: Session, chats: seq<Chat>, id: string)
    requires Synced(s, chats)
    ensures Synced(DeleteSpec(s, id), Without(chats, ChatId, id))
  {
    if s.chatId.Some? && s.chatId.value != id {
      var open := s.chatId.value;
      var i := FirstIndex(chats, ChatId, open).value;
      var r := Without(chats, ChatId, id);
      var idx := WithoutSubsequence(chats, ChatId, id);
      var k :| 0 <= k < |idx| && idx[k] == i;
      forall j | 0 <= j < k ensures ChatId(r[j]) != open {
        assert r[j] == chats[idx[j]] && idx[j] < i;
      }
      FirstIndexAt(r, ChatId, open, k);
    }
  }

  /** The page, as a class over the chat page's two variables. */
  class ChatPage {
    var currentChatId: Option<string>
    var chatHistory: seq<ChatMessage>

    constructor ()
      ensures currentChatId.None? && chatHistory == []
    {
      currentChatId := None;
      chatHistory := [];
    }

    function State(): Session
      reads this
    {
      Session(currentChatId, chatHistory)
    }

    /** `send`. */
    method Send(store: Store, input: string, orchestrate: Orchestrator, newId: string, now: string)
      modifies this, store
      ensures (State(), store.chats) == SendSpec(old(State()), old(store.chats), input, orchestrate, newId, now)
      ensures store.notes == old(store.notes) && store.tags == old(store.tags)
    {
      var text := Strip(input);
      if text == [] {
        return;
      }
      if currentChatId.None? && |chatHistory| == 0 {
        if store.CountChats() >= MaxChats {
          return;
        }
      }
      chatHistory := chatHistory + [ChatMessage("user", text, [])];
      var result := Answer(orchestrate(chatHistory));
      chatHistory := chatHistory + [ChatMessage("assistant", result.answer, result.sources)];
      if currentChatId.None? {
        var title := Take(chatHistory[0].content, TitleLength);
        var created := store.SaveChat(newId, now, title, chatHistory);
        if created.Some? {
          currentChatId := Some(created.value.id);
        }
      } else {
        var _ := store.UpdateChat(currentChatId.value, chatHistory, None, now);
      }
    }

    /** `handle_new_chat`. */
    method HandleNewChat(store: Store)
      modifies this
      ensures State() == NewChatSpec(old(State()), store.chats)
    {
      if store.CountChats() >= MaxChats {
        return;
      }
      currentChatId := None;
      chatHistory := [];
    }

    /** `load_conversation`. */
    method LoadConversation(store: Store, id: string)
      modifies this
      ensures State() == LoadSpec(old(State()), store.chats, id)
    {
      var chat := store.GetChat(id);
      if chat.None? {
        return;
      }
      currentChatId := Some(chat.value.id);
      chatHistory := chat.value.messages;
    }

    /** `confirm_delete_chat` / `do_delete`. */
    method DoDelete(store: Store, id: string)
      modifies this, store
      ensures store.chats == Without(old(store.chats), ChatId, id)
      ensures store.notes == old(store.notes) && store.tags == old(store.tags)
      ensures State() == DeleteSpec(old(State()), id)
    {
      var _ := store.DeleteChat(id);
      if currentChatId == Some(id) {
        currentChatId := None;
        chatHistory := [];
      }
    }
  }
}
