/** The chat history manager of `ChatInterface.jsx`: the current
    conversation (messages, id, selected model), the bounded history list
    of past conversations, their persistence under `currentChatSession`
    and `savedChats`, the message send path with its reply unwrapping, and
    the text export. */
module ChatHistory {
  import opened Common
  import opened Json
  import opened Records
  import opened Kv

  const DefaultModel := "gpt-4o-mini"
  /** The history list never grows beyond this many sessions. */
  const HistoryCap := 50
  /** The current session is snapshotted into history at every multiple of
      this many messages. */
  const SnapshotEvery := 5
  const TitleLength := 50
  const FallbackTitle := "Cuộc trò chuyện"
  const UnreadableReply := "AI đã phản hồi nhưng không thể hiển thị nội dung."

  /** `if (currentChatId)`: JavaScript treats both `null` and `0` as unset. */
  predicate IdIsSet(id: Option<ChatId>) {
    id.Some? && id.value != 0
  }

  /** `messages[0]?.content?.substring(0, 50) + '...' || 'Cuộc trò chuyện'`.
      On an empty list the first operand is `undefined + '...'`. */
  function SessionTitle(messages: seq<Message>): (r: string)
    ensures r != FallbackTitle
    ensures |r| >= 3 && r[|r| - 3..] == "..."
    ensures messages != [] ==>
      |r| - 3 <= TitleLength && r[..|r| - 3] <= messages[0].content &&
      (|messages[0].content| >= TitleLength ==> |r| - 3 == TitleLength) &&
      (|messages[0].content| < TitleLength ==> r[..|r| - 3] == messages[0].content)
  {
    var head := if messages == [] then "undefined" else Take(messages[0].content, TitleLength);
    var title := head + "...";
    assert title[|title| - 3..] == "...";
    assert title[..|title| - 3] == head;
    if title != "" then title else FallbackTitle
  }

  /** The snapshot test of `autoSaveChat`: a positive multiple of five. */
  predicate SnapshotDue(count: nat) {
    count % SnapshotEvery == 0 && count > 0
  }

  // ---------------------------------------------------------------------
  // The history list: upsert by id, then keep the newest fifty.
  // ---------------------------------------------------------------------

  /** `chats.findIndex(chat => chat.id === id)`. */
  function IndexOfId(chats: seq<Session>, id: ChatId): (i: int)
    ensures -1 <= i < |chats|
    ensures i >= 0 ==> chats[i].id == id && forall j :: 0 <= j < i ==> chats[j].id != id
    ensures i == -1 <==> forall j :: 0 <= j < |chats| ==> chats[j].id != id
  {
    if chats == [] then -1
    else if chats[0].id == id then 0
    else
      var k := IndexOfId(chats[1..], id);
      if k < 0 then -1 else k + 1
  }

  /** The upsert of `saveToHistory`: overwrite the first entry with the
      same id where it stands, or push the entry at the end. */
  function Upsert(chats: seq<Session>, entry: Session): (r: seq<Session>)
    ensures entry in r
    ensures |r| == |chats| || |r| == |chats| + 1
  {
    var i := IndexOfId(chats, entry.id);
    if i >= 0 then
      assert chats[i := entry][i] == entry;
      chats[i := entry]
    else
      assert (chats + [entry])[|chats|] == entry;
      chats + [entry]
  }

  /** The list `saveToHistory` writes: the upsert, then `splice` away the
      oldest entries beyond fifty. */
  function Snapshot(chats: seq<Session>, entry: Session): (r: seq<Session>)
    ensures |r| <= HistoryCap
  {
    Last(Upsert(chats, entry), HistoryCap)
  }

  lemma UpsertReplacesInPlace(chats: seq<Session>, entry: Session, i: nat)
    requires i < |chats| && chats[i].id == entry.id
    requires forall j :: 0 <= j < i ==> chats[j].id != entry.id
    ensures |Upsert(chats, entry)| == |chats|
    ensures Upsert(chats, entry)[i] == entry
    ensures forall j :: 0 <= j < |chats| && j != i ==> Upsert(chats, entry)[j] == chats[j]
  {
  }

  lemma UpsertAppendsNew(chats: seq<Session>, entry: Session)
    requires forall j :: 0 <= j < |chats| ==> chats[j].id != entry.id
    ensures Upsert(chats, entry) == chats + [entry]
  {
  }

  /** The saved list is exactly the newest fifty of the upserted list, in
      order. */
  lemma SnapshotKeepsNewest(chats: seq<Session>, entry: Session)
    ensures var u := Upsert(chats, entry);
      |Snapshot(chats, entry)| == (if |u| < HistoryCap then |u| else HistoryCap) &&
      Snapshot(chats, entry) == u[|u| - |Snapshot(chats, entry)|..]
  {
  }

  /** A history that is within the cap keeps the entry just saved. */
  lemma SnapshotContainsEntry(chats: seq<Session>, entry: Session)
    requires |chats| <= HistoryCap
    ensures entry in Snapshot(chats, entry)
  {
    var u := Upsert(chats, entry);
    var i := IndexOfId(chats, entry.id);
    if i < 0 {
      assert u[|u| - 1] == entry;
      assert u == chats + [entry];
    } else {
      assert |u| <= HistoryCap;
    }
  }

  /** No two entries share an id. */
  predicate UniqueIds(chats: seq<Session>) {
    forall i, j :: 0 <= i < j < |chats| ==> chats[i].id != chats[j].id
  }

  /** Saving into a history without duplicate ids keeps it free of them. */
  lemma SnapshotPreservesUniqueIds(chats: seq<Session>, entry: Session)
    requires UniqueIds(chats)
    ensures UniqueIds(Snapshot(chats, entry))
  {
    var u := Upsert(chats, entry);
    var k := IndexOfId(chats, entry.id);
    assert UniqueIds(u) by {
      if k >= 0 {
        forall i, j | 0 <= i < j < |u| ensures u[i].id != u[j].id {
          if i != k && j != k {
            assert u[i] == chats[i] && u[j] == chats[j];
          } else if i == k {
            assert u[j] == chats[j] && chats[k].id == entry.id;
          } else {
            assert u[i] == chats[i] && chats[k].id == entry.id;
          }
        }
      } else {
        assert u == chats + [entry];
      }
    }
    var r := Snapshot(chats, entry);
    assert r == u[|u| - |r|..];
    forall i, j | 0 <= i < j < |r| ensures r[i].id != r[j].id {
      assert r[i] == u[|u| - |r| + i] && r[j] == u[|u| - |r| + j];
    }
  }

  /** Last write wins: saving two records with the same id leaves the same
      history as saving only the later one, as long as the history was
      within the cap. Snapshots at 5 and then at 10 messages of one
      session thus leave a single entry, holding all 10 messages. */
  lemma SnapshotLastWriteWins(chats: seq<Session>, first: Session, second: Session)
    requires |chats| <= HistoryCap
    requires first.id == second.id
    ensures Snapshot(Snapshot(chats, first), second) == Snapshot(chats, second)
  {
    var k := IndexOfId(chats, first.id);
    if k >= 0 {
      LastWriteWinsPresent(chats, first, second, k);
    } else {
      LastWriteWinsAbsent(chats, first, second);
    }
  }

  /** Within the cap, the snapshot is the upsert itself. */
  lemma SnapshotWithinCap(chats: seq<Session>, entry: Session)
    requires |Upsert(chats, entry)| <= HistoryCap
    ensures Snapshot(chats, entry) == Upsert(chats, entry)
  {
  }

  /** Saving over an entry leaves it the first with that id. */
  lemma IndexAfterReplace(chats: seq<Session>, k: int, x: Session)
    requires k == IndexOfId(chats, x.id) && k >= 0
    ensures IndexOfId(chats[k := x], x.id) == k
  {
    var i := IndexOfId(chats[k := x], x.id);
    assert chats[k := x][k].id == x.id;
    assert forall j :: 0 <= j < k ==> chats[k := x][j] == chats[j];
  }

  /** A pushed entry is the first with its id when no earlier one has it. */
  lemma IndexAfterPush(chats: seq<Session>, d: nat, x: Session)
    requires d <= |chats| && IndexOfId(chats, x.id) == -1
    ensures IndexOfId((chats + [x])[d..], x.id) == |chats| - d
  {
    var s := (chats + [x])[d..];
    var n := |chats| - d;
    assert s[n] == x;
    var i := IndexOfId(s, x.id);
    assert i != -1;
    assert s[i] == (chats + [x])[d + i];
    assert forall j :: 0 <= j < |chats| ==> chats[j].id != x.id;
  }

  lemma LastWriteWinsPresent(chats: seq<Session>, first: Session, second: Session, k: int)
    requires |chats| <= HistoryCap && first.id == second.id
    requires k == IndexOfId(chats, first.id) && k >= 0
    ensures Snapshot(Snapshot(chats, first), second) == Snapshot(chats, second)
  {
    var s1 := chats[k := first];
    SnapshotWithinCap(chats, first);
    IndexAfterReplace(chats, k, first);
    SnapshotWithinCap(s1, second);
    SnapshotWithinCap(chats, second);
    UpdateTwice(chats, k, first, second);
  }

  /** Saving a new id pushes it, dropping the oldest entry when the
      history was full. */
  lemma SnapshotOfNew(chats: seq<Session>, x: Session)
    requires |chats| <= HistoryCap && IndexOfId(chats, x.id) == -1
    ensures Snapshot(chats, x) == (chats + [x])[(if |chats| == HistoryCap then 1 else 0)..]
  {
  }

  lemma LastWriteWinsAbsent(chats: seq<Session>, first: Session, second: Session)
    requires |chats| <= HistoryCap && first.id == second.id
    requires IndexOfId(chats, first.id) == -1
    ensures Snapshot(Snapshot(chats, first), second) == Snapshot(chats, second)
  {
    var d := if |chats| == HistoryCap then 1 else 0;
    var s1 := (chats + [first])[d..];
    SnapshotOfNew(chats, first);
    SnapshotOfNew(chats, second);
    IndexAfterPush(chats, d, first);
    assert Upsert(s1, second) == s1[|chats| - d := second];
    ReplaceAppended(chats, d, first, second);
    SnapshotWithinCap(s1, second);
  }

  /** Deleting a session keeps every other one, in order. */
  function RemoveChat(chats: seq<Session>, id: ChatId): (r: seq<Session>)
    ensures forall c :: c in r ==> c in chats && c.id != id
    ensures forall c :: c in chats && c.id != id ==> c in r
    ensures IsSubsequence(r, chats)
    ensures forall c :: c in chats ==> multiset(r)[c] == if c.id != id then multiset(chats)[c] else 0
    ensures (forall j :: 0 <= j < |chats| ==> chats[j].id != id) ==> r == chats
  {
    var keep := (c: Session) => c.id != id;
    FilterIsSubsequence(chats, keep);
    FilterCounts(chats, keep);
    if forall j :: 0 <= j < |chats| ==> chats[j].id != id then
      FilterKeepsAll(chats, keep);
      Filter(chats, keep)
    else
      Filter(chats, keep)
  }

  /** What `existingChats ? JSON.parse(existingChats) : []` yields, or
      `None` when parsing (or the `findIndex` that follows) throws. */
  function StoredHistory(stored: Option<Value>): Option<seq<Session>> {
    match stored
    case None => Some([])
    case Some(SessionList(chats)) => Some(chats)
    case Some(_) => None
  }

  /** The list `saveToHistory(entry)` writes, given what the store holds
      under `savedChats` and whether reading it succeeded; `None` when the
      save gives up before writing. */
  function HistoryWrite(stored: Option<Value>, readOk: bool, entry: Session, now: int): Option<seq<Session>> {
    var existing := StoredHistory(stored);
    if readOk && existing.Some? then Some(Snapshot(existing.value, entry.(timestamp := Some(now))))
    else None
  }

  // ---------------------------------------------------------------------
  // Provider replies and the export.
  // ---------------------------------------------------------------------

  /** The outcome of one `puter.ai.chat` call. */
  datatype ChatReply = Replied(response: Json) | ChatFailed(error: Json)

  /** `Array.isArray(c) ? (c[0]?.text || c[0]) : c`. */
  function ContentValue(c: Json): Json {
    if c.Arr? then Or(Get(First(c), "text"), First(c)) else c
  }

  /** The `message.content` of a reply, when it is truthy. */
  predicate HasMessageContent(j: Json) {
    Truthy(j) && Truthy(Get(j, "message")) && Truthy(Get(Get(j, "message"), "content"))
  }

  /** The text of the first element of an array of replies; the chain of
      `sendMessage` leaves the text empty when none of the cases applies. */
  function FirstReplyText(f: Json): string {
    if HasMessageContent(f) then ToText(Get(Get(f, "message"), "content"))
    else if Truthy(f) && Truthy(Get(f, "content")) then ToText(Get(f, "content"))
    else if Truthy(f) && f.Str? then f.s
    else ""
  }

  /** The reply text `sendMessage` extracts from a provider response. */
  function ReplyText(response: Json, model: string): (r: string)
    ensures response.Str? ==> r == response.s
    ensures HasMessageContent(response) ==> r == ToText(ContentValue(Get(Get(response, "message"), "content")))
    ensures response.Obj? && !HasMessageContent(response) && Truthy(Get(response, "content")) ==>
      r == ToText(Get(response, "content"))
    ensures response.Obj? && !HasMessageContent(response) && !Truthy(Get(response, "content")) ==>
      var message := Get(response, "message");
      r == if message.Str? && message.s != "" then message.s
           else if Truthy(Get(response, "text")) then ToText(Get(response, "text"))
           else "Response from " + model + ": " + Stringify(response, "")
    ensures response.Arr? && response.elems != [] ==> r == FirstReplyText(response.elems[0])
    ensures response.Arr? && response.elems == [] ==> r == "Response from " + model + ": []"
    ensures response.Bool? || response.Num? || response.Null? || response.Undefined? ==> r == UnreadableReply
  {
    if response.Str? then response.s
    else if HasMessageContent(response) then ToText(ContentValue(Get(Get(response, "message"), "content")))
    else if Truthy(response) && Truthy(Get(response, "content")) then ToText(Get(response, "content"))
    else if Truthy(response) && Get(response, "message").Str? && Truthy(Get(response, "message")) then
      Get(response, "message").s
    else if Truthy(response) && Truthy(Get(response, "text")) then ToText(Get(response, "text"))
    else if response.Arr? && |response.elems| > 0 then FirstReplyText(response.elems[0])
    else if Truthy(response) && (response.Obj? || response.Arr?) then
      "Response from " + model + ": " + Stringify(response, "")
    else UnreadableReply
  }

  /** The `image` a user message keeps of the uploaded image handed to
      `sendMessage`: its name and its preview reference, nothing else. */
  function AttachmentOf(imageData: Option<Descriptor>): (a: Option<Attachment>)
    ensures a.None? <==> imageData.None?
    ensures a.Some? ==> a.value.name == imageData.value.name && a.value.url == imageData.value.previewUrl
  {
    match imageData
    case None => None
    case Some(d) => Some(Attachment(d.name, d.previewUrl))
  }

  function ErrorApology(model: string): string {
    "Xin lỗi, đã có lỗi khi sử dụng model " + model + ". Vui lòng thử model khác hoặc thử lại!"
  }

  /** The single assistant message `sendMessage` appends after asking the
      provider. */
  function AssistantReply(reply: ChatReply, model: string, now: int): (m: Message)
    ensures m.role == Assistant && m.image.None?
    ensures m.isError <==> reply.ChatFailed?
    ensures m.isError ==> m.model.None? && m.content == ErrorApology(model)
    ensures !m.isError ==> m.model == Some(model) && m.content == ReplyText(reply.response, model)
    ensures reply.Replied? && reply.response.Str? ==> m.content == reply.response.s
  {
    match reply
    case Replied(response) => Message(Assistant, ReplyText(response, model), now, None, Some(model), false)
    case ChatFailed(_) => Message(Assistant, ErrorApology(model), now, None, None, true)
  }

  function RoleLabel(role: Role): string {
    match role
    case User => "USER"
    case Assistant => "ASSISTANT"
  }

  /** `[ROLE]: content`, or `[ROLE - model]: content` when the message
      names a model. */
  function ExportBlock(m: Message): string {
    "[" + RoleLabel(m.role)
    + (if m.model.Some? && m.model.value != "" then " - " + m.model.value else "")
    + "]: " + m.content
  }

  function ExportBlocks(messages: seq<Message>): (r: seq<string>)
    ensures |r| == |messages|
    ensures forall i :: 0 <= i < |messages| ==> r[i] == ExportBlock(messages[i])
  {
    seq(|messages|, i requires 0 <= i < |messages| => ExportBlock(messages[i]))
  }

  /** The file `exportChat` writes: nothing for an empty conversation. */
  datatype ExportFile = ExportFile(name: string, text: string)

  function Export(messages: seq<Message>, model: string, now: int): (r: Option<ExportFile>)
    ensures r.None? <==> messages == []
    ensures r.Some? ==> r.value.name == "chat_" + model + "_" + IntToString(now) + ".txt"
  {
    if messages == [] then None
    else Some(ExportFile("chat_" + model + "_" + IntToString(now) + ".txt",
                         Join(ExportBlocks(messages), "\n\n")))
  }

  /** The export lists one block per message, in order, separated by a
      blank line: a one-message chat is just its block, and one more
      message adds `"\n\n"` and its block at the end. */
  lemma ExportAppend(messages: seq<Message>, m: Message, model: string, now: int)
    ensures Export([m], model, now).value.text == ExportBlock(m)
    ensures messages != [] ==>
      Export(messages + [m], model, now).value.text ==
      Export(messages, model, now).value.text + "\n\n" + ExportBlock(m)
  {
    if messages != [] {
      assert ExportBlocks(messages + [m]) == ExportBlocks(messages) + [ExportBlock(m)];
      JoinSnoc(ExportBlocks(messages), ExportBlock(m), "\n\n");
    }
  }

  // ---------------------------------------------------------------------
  // The component's state.
  // ---------------------------------------------------------------------

  /** A session record built from the current state: `autoSaveChat` stamps
      it `lastUpdated`, the snapshots taken before a new or loaded chat
      stamp it `timestamp`. */
  function CurrentRecord(id: ChatId, messages: seq<Message>, model: string, now: int, autosave: bool): Session {
    Session(id, messages, model, SessionTitle(messages),
            if autosave then Some(now) else None,
            if autosave then None else Some(now))
  }

  class ChatManager {
    var messages: seq<Message>
    var inputMessage: string
    var isLoading: bool
    var currentChatId: Option<ChatId>
    var selectedModel: string
    var chatHistory: seq<Session>
    const kv: Store

    constructor (kv: Store)
      ensures this.kv == kv
      ensures messages == [] && inputMessage == "" && !isLoading
      ensures currentChatId == None && selectedModel == DefaultModel && chatHistory == []
    {
      this.kv := kv;
      messages := [];
      inputMessage := "";
      isLoading := false;
      currentChatId := None;
      selectedModel := DefaultModel;
      chatHistory := [];
    }

    /** `loadChatHistory`: adopt the stored list; a missing, unreadable or
        failed read leaves the history as it was. */
    method LoadChatHistory(readOk: bool)
      modifies this`chatHistory
      ensures chatHistory ==
        if readOk && kv.Lookup(HistoryKey).Some? && kv.Lookup(HistoryKey).value.SessionList?
        then kv.Lookup(HistoryKey).value.sessions else old(chatHistory)
    {
      var stored := kv.Lookup(HistoryKey);
      if readOk && stored.Some? && stored.value.SessionList? {
        chatHistory := stored.value.sessions;
      }
    }

    /** `loadCurrentSession`: restore messages and id from the stored
        record, and its model when it names one. */
    method LoadCurrentSession(readOk: bool)
      modifies this`messages, this`currentChatId, this`selectedModel
      ensures var stored := kv.Lookup(CurrentSessionKey);
        if readOk && stored.Some? && stored.value.SessionValue? then
          var s := stored.value.session;
          messages == s.messages && currentChatId == Some(s.id) &&
          selectedModel == (if s.model != "" then s.model else old(selectedModel))
        else
          messages == old(messages) && currentChatId == old(currentChatId) &&
          selectedModel == old(selectedModel)
    {
      var stored := kv.Lookup(CurrentSessionKey);
      if readOk && stored.Some? && stored.value.SessionValue? {
        var s := stored.value.session;
        messages := s.messages;
        currentChatId := Some(s.id);
        if s.model != "" {
          selectedModel := s.model;
        }
      }
    }

    /** `saveToHistory(entry)`: read `savedChats`, upsert the entry stamped
        `now`, evict beyond fifty, write it back and adopt it. Any failure
        leaves both the store and the in-memory history as they were. */
    method SaveToHistory(entry: Session, now: int, readOk: bool, writeOk: bool)
      modifies kv, this`chatHistory
      ensures var w := HistoryWrite(old(kv.Lookup(HistoryKey)), readOk, entry, now);
        if w.Some? && writeOk then
          kv.entries == old(kv.entries)[HistoryKey := SessionList(w.value)] && chatHistory == w.value
        else
          kv.entries == old(kv.entries) && chatHistory == old(chatHistory)
    {
      if !readOk {
        return;
      }
      var existing := StoredHistory(kv.Lookup(HistoryKey));
      if existing.None? {
        return;
      }
      var saved := existing.value;
      var stamped := entry.(timestamp := Some(now));
      var existingIndex := IndexOfId(saved, stamped.id);
      if existingIndex >= 0 {
        saved := saved[existingIndex := stamped];
      } else {
        saved := saved + [stamped];
      }
      if |saved| > HistoryCap {
        saved := saved[|saved| - HistoryCap..];
      }
      if !writeOk {
        return;
      }
      kv.Put(HistoryKey, SessionList(saved));
      chatHistory := saved;
    }

    /** `autoSaveChat`: give the session an id if it has none, always write
        the current-session record, and snapshot it into history when the
        message count is a positive multiple of five. `assignClock` and
        `writeClock` are the two `Date.now()` readings of lines 103 and
        108 of `ChatInterface.jsx`; `writeClock` also stamps the record. */
    method AutoSaveChat(assignClock: int, writeClock: int, writeOk: bool, historyReadOk: bool, historyWriteOk: bool)
      modifies kv, this`currentChatId, this`chatHistory
      ensures currentChatId == if IdIsSet(old(currentChatId)) then old(currentChatId) else Some(assignClock)
      ensures var id := if IdIsSet(old(currentChatId)) then old(currentChatId).value else writeClock;
        var record := CurrentRecord(id, messages, selectedModel, writeClock, true);
        var written := old(kv.entries)[CurrentSessionKey := SessionValue(record)];
        var w := HistoryWrite(old(kv.Lookup(HistoryKey)), historyReadOk, record, writeClock);
        if !writeOk then
          kv.entries == old(kv.entries) && chatHistory == old(chatHistory)
        else if SnapshotDue(|messages|) && w.Some? && historyWriteOk then
          kv.entries == written[HistoryKey := SessionList(w.value)] && chatHistory == w.value
        else
          kv.entries == written && chatHistory == old(chatHistory)
    {
      var idWasSet := IdIsSet(currentChatId);
      var id := if idWasSet then currentChatId.value else writeClock;
      if !idWasSet {
        currentChatId := Some(assignClock);
      }
      var record := CurrentRecord(id, messages, selectedModel, writeClock, true);
      if !writeOk {
        return;
      }
      kv.Put(CurrentSessionKey, SessionValue(record));
      if SnapshotDue(|messages|) {
        SaveToHistory(record, writeClock, historyReadOk, historyWriteOk);
      }
    }

    /** `loadChatFromHistory(chat)`: snapshot a non-empty current session
        that has an id, then show the chosen session (default model when
        it names none) and write it as the current-session record. */
    method LoadChatFromHistory(chat: Session, now: int, historyReadOk: bool, historyWriteOk: bool, writeOk: bool)
      modifies kv, this`messages, this`currentChatId, this`selectedModel, this`chatHistory
      ensures messages == chat.messages && currentChatId == Some(chat.id)
      ensures selectedModel == if chat.model != "" then chat.model else DefaultModel
      ensures var snap := |old(messages)| > 0 && IdIsSet(old(currentChatId));
        var w := if snap then HistoryWrite(old(kv.Lookup(HistoryKey)), historyReadOk,
                   CurrentRecord(old(currentChatId).value, old(messages), old(selectedModel), now, false), now)
                 else None;
        var afterSnapshot := if w.Some? && historyWriteOk
                             then old(kv.entries)[HistoryKey := SessionList(w.value)] else old(kv.entries);
        chatHistory == (if w.Some? && historyWriteOk then w.value else old(chatHistory)) &&
        kv.entries == if writeOk then afterSnapshot[CurrentSessionKey := SessionValue(chat)] else afterSnapshot
    {
      if |messages| > 0 && IdIsSet(currentChatId) {
        var record := CurrentRecord(currentChatId.value, messages, selectedModel, now, false);
        SaveToHistory(record, now, historyReadOk, historyWriteOk);
      }
      messages := chat.messages;
      currentChatId := Some(chat.id);
      selectedModel := if chat.model != "" then chat.model else DefaultModel;
      if writeOk {
        kv.Put(CurrentSessionKey, SessionValue(chat));
      }
    }

    /** `startNewChat`: snapshot a non-empty current session that has an
        id, delete the current-session record, then clear the session.
        When the delete fails the in-memory session is left as it was. */
    method StartNewChat(now: int, historyReadOk: bool, historyWriteOk: bool, deleteOk: bool)
      modifies kv, this`messages, this`currentChatId, this`chatHistory
      ensures var snap := |old(messages)| > 0 && IdIsSet(old(currentChatId));
        var w := if snap then HistoryWrite(old(kv.Lookup(HistoryKey)), historyReadOk,
                   CurrentRecord(old(currentChatId).value, old(messages), selectedModel, now, false), now)
                 else None;
        var afterSnapshot := if w.Some? && historyWriteOk
                             then old(kv.entries)[HistoryKey := SessionList(w.value)] else old(kv.entries);
        chatHistory == (if w.Some? && historyWriteOk then w.value else old(chatHistory)) &&
        kv.entries == (if deleteOk then afterSnapshot - {CurrentSessionKey} else afterSnapshot)
      ensures deleteOk ==> messages == [] && currentChatId == None
      ensures !deleteOk ==> messages == old(messages) && currentChatId == old(currentChatId)
    {
      if |messages| > 0 && IdIsSet(currentChatId) {
        var record := CurrentRecord(currentChatId.value, messages, selectedModel, now, false);
        SaveToHistory(record, now, historyReadOk, historyWriteOk);
      }
      if !deleteOk {
        return;
      }
      kv.Remove(CurrentSessionKey);
      messages := [];
      currentChatId := None;
    }

    /** `saveCurrentChat`: snapshot the current session into history by
        hand (nothing for an empty one); `clock` is the `Date.now()` used
        when the session has no id yet. */
    method SaveCurrentChat(clock: int, now: int, historyReadOk: bool, historyWriteOk: bool)
      modifies kv, this`chatHistory
      ensures var id := if IdIsSet(currentChatId) then currentChatId.value else clock;
        var record := CurrentRecord(id, messages, selectedModel, now, false);
        var w := HistoryWrite(old(kv.Lookup(HistoryKey)), historyReadOk, record, now);
        if messages != [] && w.Some? && historyWriteOk then
          kv.entries == old(kv.entries)[HistoryKey := SessionList(w.value)] && chatHistory == w.value
        else
          kv.entries == old(kv.entries) && chatHistory == old(chatHistory)
    {
      if |messages| == 0 {
        return;
      }
      var id := if IdIsSet(currentChatId) then currentChatId.value else clock;
      SaveToHistory(CurrentRecord(id, messages, selectedModel, now, false), now, historyReadOk, historyWriteOk);
    }

    /** `deleteChatFromHistory(id)`: filter the in-memory history and write
        the result to `savedChats`. */
    method DeleteChatFromHistory(id: ChatId, writeOk: bool)
      modifies kv, this`chatHistory
      ensures chatHistory == RemoveChat(old(chatHistory), id)
      ensures kv.entries == if writeOk then old(kv.entries)[HistoryKey := SessionList(chatHistory)]
                            else old(kv.entries)
    {
      chatHistory := RemoveChat(chatHistory, id);
      if writeOk {
        kv.Put(HistoryKey, SessionList(chatHistory));
      }
    }

    /** `sendMessage(customMessage, customResponse, imageData)`. An empty
        `customMessage` stands for an absent one, as the falsy test treats
        it; `customResponse` is the text of a truthy response, if any.
        Blank text or a call while a reply is pending changes nothing;
        otherwise the user message and then exactly one assistant message
        are appended: the custom response if there is one, else the reply
        unwrapped from the provider, else an apology flagged `isError`.
        The user message keeps the name and preview of `imageData`, the
        uploaded image handed over by the upload panel, if any. */
    method SendMessage(customMessage: string, customResponse: Option<string>, imageData: Option<Descriptor>,
                       reply: ChatReply, now: int)
      modifies this`messages, this`inputMessage
      ensures var text := if customMessage != "" then customMessage else old(inputMessage);
        if IsBlank(text) || isLoading then
          messages == old(messages) && inputMessage == old(inputMessage)
        else
          var user := Message(User, text, now, AttachmentOf(imageData), None, false);
          var answer := if customResponse.Some?
                        then Message(Assistant, customResponse.value, now, None, Some(selectedModel), false)
                        else AssistantReply(reply, selectedModel, now);
          messages == old(messages) + [user, answer] &&
          inputMessage == (if customMessage == "" then "" else old(inputMessage))
    {
      var text := if customMessage != "" then customMessage else inputMessage;
      if IsBlank(text) || isLoading {
        return;
      }
      var user := Message(User, text, now, AttachmentOf(imageData), None, false);
      messages := messages + [user];
      if customMessage == "" {
        inputMessage := "";
      }
      if customResponse.Some? {
        messages := messages + [Message(Assistant, customResponse.value, now, None, Some(selectedModel), false)];
        return;
      }
      messages := messages + [AssistantReply(reply, selectedModel, now)];
    }
  }
}
