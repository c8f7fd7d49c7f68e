/** The saved-chat panel: the list of saved sessions with delete by id,
    the short text preview of a session, the display names of models, and
    the shared provider that hands a saved session to the chat. */
module SavedChats {
  import opened Common
  import opened Records
  import opened Kv
  import opened ChatHistory

  const NoMessages := "Không có tin nhắn"
  const PreviewCount := 3
  const PreviewLength := 100

  // ---------------------------------------------------------------------
  // Model display names.
  // ---------------------------------------------------------------------

  /** The display names the panel knows. */
  function ModelNames(): map<string, string> {
    map[
      "gpt-4o" := "GPT-4o",
      "gpt-4o-mini" := "GPT-4o Mini",
      "gpt-4.1" := "GPT-4.1",
      "gpt-4.1-mini" := "GPT-4.1 Mini",
      "gpt-4.1-nano" := "GPT-4.1 Nano",
      "claude-sonnet-4" := "Claude Sonnet 4",
      "claude-opus-4" := "Claude Opus 4",
      "claude-3-5-sonnet" := "Claude 3.5 Sonnet",
      "claude" := "Claude 3.7 Sonnet",
      "google/gemini-2.5-flash" := "Gemini 2.5 Flash",
      "google/gemini-pro" := "Gemini Pro",
      "meta-llama/Meta-Llama-3.1-70B-Instruct-Turbo" := "Llama 3.1 70B",
      "o1" := "o1",
      "o1-mini" := "o1 Mini",
      "o3-mini" := "o3 Mini"
    ]
  }

  /** `modelMap[modelId] || modelId`: every known name is non-empty, so a
      known id always shows its name. */
  function GetModelDisplay(modelId: string): (r: string)
    ensures modelId in ModelNames() ==> r == ModelNames()[modelId] && r != ""
    ensures modelId !in ModelNames() ==> r == modelId
  {
    if modelId in ModelNames() && ModelNames()[modelId] != "" then ModelNames()[modelId] else modelId
  }

  /** Showing a shown name again changes nothing: no display name is the
      id of a different model. */
  lemma DisplayIdempotent(modelId: string)
    ensures GetModelDisplay(GetModelDisplay(modelId)) == GetModelDisplay(modelId)
  {
    var names := ModelNames();
    if modelId in names {
      assert forall k :: k in names ==> names[k] !in names || names[names[k]] == names[k];
    }
  }

  /** Distinct known models never share a display name. */
  lemma DisplayDistinguishesKnown(a: string, b: string)
    requires a in ModelNames() && b in ModelNames() && a != b
    ensures GetModelDisplay(a) != GetModelDisplay(b)
  {
  }

  // ---------------------------------------------------------------------
  // The preview text.
  // ---------------------------------------------------------------------

  function RoleIcon(role: Role): char {
    if role == User then '👤' else '🤖'
  }

  /** One preview line: the role icon, a space, the first hundred
      characters of the content and `...` when something was cut. */
  function PreviewLine(m: Message): (r: string)
    ensures |r| == 2 + (if |m.content| <= PreviewLength then |m.content| else PreviewLength + 3)
    ensures r[..2] == [RoleIcon(m.role), ' ']
    ensures |m.content| <= PreviewLength ==> r[2..] == m.content
    ensures |m.content| > PreviewLength ==> r[2..] == m.content[..PreviewLength] + "..."
  {
    [RoleIcon(m.role), ' '] + Take(m.content, PreviewLength)
    + (if |m.content| > PreviewLength then "..." else "")
  }

  /** A line breaks no further when the content has no line break. */
  lemma PreviewLineSingle(m: Message)
    requires forall i :: 0 <= i < |m.content| ==> m.content[i] != '\n'
    ensures Count(PreviewLine(m), '\n') == 0
  {
    var r := PreviewLine(m);
    forall i | 0 <= i < |r| ensures r[i] != '\n' {
      if 2 <= i < 2 + |Take(m.content, PreviewLength)| {
        assert r[i] == m.content[i - 2];
      }
    }
    CountAbsent(r, '\n');
  }

  /** The preview lines: one per message among the first three, in order. */
  function PreviewLines(messages: seq<Message>): (r: seq<string>)
    ensures |r| == if |messages| < PreviewCount then |messages| else PreviewCount
    ensures forall i :: 0 <= i < |r| ==> r[i] == PreviewLine(messages[i])
  {
    var first := Take(messages, PreviewCount);
    seq(|first|, i requires 0 <= i < |first| => PreviewLine(first[i]))
  }

  /** `formatChatPreview(messages)`. */
  function FormatChatPreview(messages: seq<Message>): (r: string)
    ensures messages == [] ==> r == NoMessages
    ensures |messages| == 1 ==> r == PreviewLine(messages[0])
  {
    if messages == [] then NoMessages else Join(PreviewLines(messages), "\n")
  }

  /** The preview lists the lines of the messages shown in their order,
      one per line: a further message among the first three adds a line
      break and its own line at the end. */
  lemma PreviewAppend(messages: seq<Message>, m: Message)
    requires 1 <= |messages| < PreviewCount
    ensures FormatChatPreview(messages + [m]) == FormatChatPreview(messages) + "\n" + PreviewLine(m)
  {
    assert PreviewLines(messages + [m]) == PreviewLines(messages) + [PreviewLine(m)];
    JoinSnoc(PreviewLines(messages), PreviewLine(m), "\n");
  }

  /** A preview of single-line messages has one line per message shown,
      at most three. */
  lemma PreviewLineCount(messages: seq<Message>)
    requires messages != []
    requires forall m :: m in messages ==> forall i :: 0 <= i < |m.content| ==> m.content[i] != '\n'
    ensures Count(FormatChatPreview(messages), '\n') + 1 ==
      if |messages| < PreviewCount then |messages| else PreviewCount
  {
    var lines := PreviewLines(messages);
    forall i | 0 <= i < |lines| ensures Count(lines[i], '\n') == 0 {
      assert messages[i] in messages;
      PreviewLineSingle(messages[i]);
    }
    JoinCount(lines, '\n');
  }

  /** Adding messages beyond the third leaves the preview as it was. */
  lemma PreviewIgnoresLater(messages: seq<Message>, more: seq<Message>)
    requires |messages| >= PreviewCount
    ensures FormatChatPreview(messages + more) == FormatChatPreview(messages)
  {
    assert PreviewLines(messages + more) == PreviewLines(messages);
  }

  // ---------------------------------------------------------------------
  // The components' state.
  // ---------------------------------------------------------------------

  /** The context provider shared by the panel and the chat. */
  class ChatProvider {
    var currentChat: Option<Session>
    const kv: Store

    constructor (kv: Store)
      ensures this.kv == kv && currentChat == None
    {
      this.kv := kv;
      currentChat := None;
    }

    /** `loadChatFromSaved(chat)`: write the chat as the current-session
        record, then make it the current chat; a failed write does
        neither. */
    method LoadChatFromSaved(chat: Session, writeOk: bool)
      modifies kv, this`currentChat
      ensures writeOk ==> kv.entries == old(kv.entries)[CurrentSessionKey := SessionValue(chat)] &&
                          currentChat == Some(chat)
      ensures !writeOk ==> kv.entries == old(kv.entries) && currentChat == old(currentChat)
    {
      if !writeOk {
        return;
      }
      kv.Put(CurrentSessionKey, SessionValue(chat));
      currentChat := Some(chat);
    }
  }

  class SavedChatsPanel {
    var savedChats: seq<Session>
    const kv: Store

    constructor (kv: Store)
      ensures this.kv == kv && savedChats == []
    {
      this.kv := kv;
      savedChats := [];
    }

    /** `loadSavedChats`: adopt the stored list; a missing, unreadable or
        failed read leaves the list as it was. */
    method LoadSavedChats(readOk: bool)
      modifies this`savedChats
      ensures var stored := kv.Lookup(HistoryKey);
        savedChats ==
          if readOk && stored.Some? && stored.value.SessionList? then stored.value.sessions
          else old(savedChats)
    {
      var stored := kv.Lookup(HistoryKey);
      if readOk && stored.Some? && stored.value.SessionList? {
        savedChats := stored.value.sessions;
      }
    }

    /** `deleteChat(id)`: drop the sessions with that id from the list and
        write the rest to `savedChats`; the list shrinks even when the
        write fails. */
    method DeleteChat(id: ChatId, writeOk: bool)
      modifies kv, this`savedChats
      ensures savedChats == RemoveChat(old(savedChats), id)
      ensures kv.entries == if writeOk then old(kv.entries)[HistoryKey := SessionList(savedChats)]
                            else old(kv.entries)
    {
      savedChats := RemoveChat(savedChats, id);
      if writeOk {
        kv.Put(HistoryKey, SessionList(savedChats));
      }
    }

    /** `loadChat(chat)` when the provider is present: hand the chat to it. */
    method LoadChat(chat: Session, provider: ChatProvider, writeOk: bool)
      modifies provider.kv, provider`currentChat
      ensures writeOk ==> provider.kv.entries == old(provider.kv.entries)[CurrentSessionKey := SessionValue(chat)] &&
                          provider.currentChat == Some(chat)
      ensures !writeOk ==> provider.kv.entries == old(provider.kv.entries) &&
                           provider.currentChat == old(provider.currentChat)
    {
      provider.LoadChatFromSaved(chat, writeOk);
    }
  }
}
