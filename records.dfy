/** The entities the components keep in memory and in the platform's
    key-value store, and the store itself. */
module Records {
  import opened Common
  import opened Json

  /** Chat ids are `Date.now()` values taken when a session is first saved. */
  type ChatId = int

  datatype Role = User | Assistant

  /** An uploaded image as the upload panel lists it and hands it to the chat. */
  datatype Descriptor = Descriptor(
    id: int,
    name: string,
    size: nat,
    mime: string,
    previewUrl: string,
    filePath: Json,
    base64: string,
    response: Json,
    uploadedAt: int)

  /** The `image` part of a user message: the uploaded file's name and its
      local preview reference. */
  datatype Attachment = Attachment(name: string, url: string)

  /** One chat message. `model` is set on assistant replies, `isError` only
      on the apology written when the provider call fails. */
  datatype Message = Message(
    role: Role,
    content: string,
    timestamp: int,
    image: Option<Attachment>,
    model: Option<string>,
    isError: bool)

  /** A chat session record, as written to `currentChatSession` and into
      the `savedChats` list. An empty `model` stands for a record without
      one. The current-session record carries `lastUpdated`; entries of the
      history list carry `timestamp` (and keep `lastUpdated` when the entry
      was made from an autosaved record). */
  datatype Session = Session(
    id: ChatId,
    messages: seq<Message>,
    model: string,
    title: string,
    lastUpdated: Option<int>,
    timestamp: Option<int>)

  /** A generated-image record as persisted under `generatedImages`
      (`generated: true` is implied; there is no test-mode flag). */
  datatype StoredImage = StoredImage(id: int, prompt: string, url: string, timestamp: string)

  /** What a key of the store holds, already decoded. `Unparseable` stands
      for text that `JSON.parse` rejects. */
  datatype Value =
    | SessionValue(session: Session)
    | SessionList(sessions: seq<Session>)
    | ImageList(images: seq<StoredImage>)
    | Text(text: string)
    | Unparseable
}

/** The platform's key-value store (`window.puter.kv`) and the browser's
    `localStorage`, both as a map from key to value. Whether a remote call
    succeeds is decided by the caller's parameters, not here. */
module Kv {
  import opened Common
  import opened Records

  const CurrentSessionKey := "currentChatSession"
  const HistoryKey := "savedChats"
  const ImagesKey := "generatedImages"
  const ThemeKey := "userTheme"
  const LocalThemeKey := "theme"

  class Store {
    var entries: map<string, Value>

    constructor (initial: map<string, Value>)
      ensures entries == initial
    {
      entries := initial;
    }

    function Lookup(key: string): Option<Value>
      reads this
    {
      if key in entries then Some(entries[key]) else None
    }

    /** `kv.set(key, value)` once it has succeeded. */
    method Put(key: string, v: Value)
      modifies this
      ensures entries == old(entries)[key := v]
    {
      entries := entries[key := v];
    }

    /** `kv.del(key)` once it has succeeded. */
    method Remove(key: string)
      modifies this
      ensures entries == old(entries) - {key}
    {
      entries := entries - {key};
    }
  }
}
