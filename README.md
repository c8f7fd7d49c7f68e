# Chat, image and preference bookkeeping of the Puter AI front-end

This project models, in Dafny, the bookkeeping inside the React front-end
of an AI chat application that runs on the Puter cloud platform. It covers
five components:

- **ChatHistory** (`ChatInterface.jsx`). It holds the current conversation: messages, id and selected model.
  - Sessions are upserted by id into a history list capped at fifty.
  - The current session is autosaved, with a history snapshot at every fifth message.
  - It covers starting a new chat and loading an old one, sending a message and unwrapping the provider's reply, exporting to text, and deleting from history.
- **ImageLedger** (`ImageGenerator.jsx`). It holds the list of generated images.
  - One fallback call is made in free test mode when the account has no credit.
  - URLs are extracted from the provider's result.
  - The shrink policy runs before the list is stored (last three, short prompts and timestamps, no inline `data:` URLs, a 300 KB budget).
  - Delete by id.
- **SavedChats** (`SavedData.jsx`). Covers the saved-chat panel (load and delete by id), the three-line text preview of a session, the display names of models, and the context provider that hands a saved session to the chat.
- **ThemePreference** (`ThemeContext.jsx`). Covers the light/dark toggle, the three-level load fallback (platform store, then `localStorage`, then the system preference), and the write that always reaches `localStorage`.
- **UploadSession** (`ImageUploadComponent.jsx`).
  - Only image files are accepted, and each is uploaded one at a time.
  - A file path is picked from the upload response, and a descriptor is kept per upload; descriptors can be removed.
  - It builds the messages handed to the chat when an image is analysed or its text is extracted.

Shared modules:

- **Common**: the JavaScript string and array operations used, over Dafny sequences.
- **Json**: JavaScript values with truthiness, property reads, `a || b`, `String(v)` and `JSON.stringify(v, null, 2)`.
- **Records**: the stored entities.
- **Kv**: the key-value store, as a class holding a map from key to an already decoded value.

Component state lives in classes. Their fields are the React state, and each method updates them as the handler does. The platform store and `localStorage` are `Store` objects the methods modify.

Some things become parameters:

- Whether each remote call succeeds: the `readOk`, `writeOk` and `deleteOk` flags, or outcome values such as `ChatReply`, `Txt2Img`, `UploadOutcome` and `OcrReply`.
- The clock readings.
- The byte size of the JSON text, for the 300 KB budget.

Each handler runs as one atomic step.

Where the code differs from what a reader might expect, the model follows the code:

- Saving a session whose id is already in the history overwrites it where it stands. It is not moved to the end.
- The image store keeps the last three images first and only then drops those with inline URLs. A list whose three newest images are inline therefore stores nothing, even when an older image has a real URL (`ShrinkIgnoresOlderValid`).
- The fallback title `'Cuộc trò chuyện'` is never produced: `... + '...'` is never empty (`SessionTitle`). The handlers only compute titles for non-empty conversations, so the dead branch does no harm.
- A failed remote theme write leaves the older remote value in force at the next load, even though `localStorage` holds the new one (`StaleRemoteWins`).

## Model

| member | source | states |
|---|---|---|
| ChatHistory.SessionTitle | src/components/ChatInterface.jsx:112 | the title is at most the first 50 characters of the first message followed by `...` (the whole content when it is shorter); it is never the fallback title |
| ChatHistory.IndexOfId | src/components/ChatInterface.jsx:130 | `findIndex`: the first index holding the id, and -1 exactly when no entry has it |
| ChatHistory.Upsert | src/components/ChatInterface.jsx:129-136 | the upserted list contains the entry and is as long as before or one longer |
| ChatHistory.Snapshot | src/components/ChatInterface.jsx:129-140 | the history written after an upsert never holds more than 50 sessions |
| ChatHistory.UpsertReplacesInPlace | src/components/ChatInterface.jsx:132-133 | an entry with a known id replaces the first entry with that id at the same index; the length and every other entry are unchanged |
| ChatHistory.UpsertAppendsNew | src/components/ChatInterface.jsx:134-135 | an entry with a new id is pushed at the end |
| ChatHistory.SnapshotKeepsNewest | src/components/ChatInterface.jsx:138-140 | the saved history is exactly the newest 50 of the upserted list, in order |
| ChatHistory.SnapshotContainsEntry | src/components/ChatInterface.jsx:129-140 | saving into a history within the cap keeps the saved session |
| ChatHistory.SnapshotPreservesUniqueIds | src/components/ChatInterface.jsx:129-140 | saving keeps a history free of duplicate ids |
| ChatHistory.SnapshotLastWriteWins | src/components/ChatInterface.jsx:115-119 | saving two records of one session leaves the same history as saving only the later one |
| ChatHistory.RemoveChat | src/components/ChatInterface.jsx:337 | deleting keeps exactly the sessions with another id, each as often as before, in their order, and changes nothing when the id is absent |
| ChatHistory.ReplyText | src/components/ChatInterface.jsx:236-269 | one case per shape of reply, in the order tried: a string verbatim; `message.content` (the first element's `text` or the element itself for an array); `content`; a non-empty string `message`; `text`; for a non-empty array, the first element's `message.content`, `content` or string (else empty); for any other object or array, `Response from <model>: ` and its JSON text (`[]` for an empty array); the unreadable-reply notice for every other value |
| ChatHistory.AssistantReply | src/components/ChatInterface.jsx:274-289 | the appended assistant message is flagged `isError` exactly when the provider call failed; it then carries the apology and no model, otherwise the unwrapped reply and the model |
| ChatHistory.Export | src/components/ChatInterface.jsx:314-320 | an empty conversation exports nothing; otherwise the file is named `chat_<model>_<time>.txt` |
| ChatHistory.ExportAppend | src/components/ChatInterface.jsx:317-319 | the export text holds one block per message in order, separated by a blank line |
| ChatHistory.ChatManager.LoadChatHistory | src/components/ChatInterface.jsx:73-82 | a stored history list is adopted; a missing or unreadable one or a failed read leaves the history alone |
| ChatHistory.ChatManager.LoadCurrentSession | src/components/ChatInterface.jsx:84-98 | a stored current session restores messages and id, and the model when it names one |
| ChatHistory.ChatManager.SaveToHistory | src/components/ChatInterface.jsx:125-147 | the store and the in-memory history both become the snapshot of the stored list with the stamped entry; any failure leaves both unchanged |
| ChatHistory.ChatManager.AutoSaveChat | src/components/ChatInterface.jsx:100-123 | the id becomes the current one or the clock; the current-session record stamped with the clock is written, and a failed write changes nothing more; after a successful one the record goes into history exactly when the message count is a positive multiple of 5 |
| ChatHistory.ChatManager.LoadChatFromHistory | src/components/ChatInterface.jsx:149-174 | a non-empty current session with an id is snapshotted first; then the chosen messages, id and model (default `gpt-4o-mini`) are shown and written as the current session |
| ChatHistory.ChatManager.StartNewChat | src/components/ChatInterface.jsx:176-195 | a non-empty current session with an id is snapshotted; the current-session record is deleted and the conversation cleared, or nothing is cleared when the delete fails |
| ChatHistory.ChatManager.SaveCurrentChat | src/components/ChatInterface.jsx:294-312 | a non-empty conversation is snapshotted into history under its id, or the clock when it has none |
| ChatHistory.ChatManager.DeleteChatFromHistory | src/components/ChatInterface.jsx:335-343 | the history loses exactly the sessions with that id and is written back |
| ChatHistory.ChatManager.SendMessage | src/components/ChatInterface.jsx:197-292 | blank text or a pending reply changes nothing; otherwise one user message, which keeps the name and preview of the uploaded image handed over (or none), and exactly one assistant message are appended: the custom response whenever one is given, even an empty text, and otherwise the provider's reply; the input is cleared unless the text was given |
| ImageLedger.Lighten | src/components/ImageGenerator.jsx:119-125 | the stored projection keeps the id, exactly the first 50 characters of the prompt (all of it when shorter), exactly the first 19 of the timestamp, and the URL when it is a real one; an empty or inline `data:` URL is stored as the empty string |
| ImageLedger.Lightened | src/components/ImageGenerator.jsx:119-125 | at most the last three images, lightened, in their order |
| ImageLedger.PlanFor | src/components/ImageGenerator.jsx:128-156 | on a lightened list: the records with real URLs are written, all of them when they fit 300 KB, else only the newest when it fits alone, else nothing (too large); nothing (no records) exactly when none has a real URL; what is written is a non-empty order-preserving selection within the budget |
| ImageLedger.PlanKeepsAllRemote | src/components/ImageGenerator.jsx:128-145 | a non-empty list of real URLs within the budget is written whole |
| ImageLedger.ShrinkPlan | src/components/ImageGenerator.jsx:117-157 | the same rule on the lightened last three images: all with real URLs when they fit 300 KB, else the newest of them alone when it fits, else refused as too large; refused for want of records exactly when none of the three has a real URL; every written record has a real URL and a short prompt and timestamp |
| ImageLedger.ShrinkKeepsRecentValid | src/components/ImageGenerator.jsx:119-128 | when the last three all have real URLs and fit, all three are stored, in order |
| ImageLedger.ShrinkIgnoresOlderValid | src/components/ImageGenerator.jsx:119-133 | for every list and every size, when none of the three newest images has a real URL nothing is stored (`NothingToSave`), whatever URLs the older images hold |
| ImageLedger.ShrinkIgnoresTestMode | src/components/ImageGenerator.jsx:119-125 | the stored list does not depend on the `testMode` flags |
| ImageLedger.RestoredAll | src/components/ImageGenerator.jsx:16-19 | images read back from the store, one per stored record, without a `testMode` flag |
| ImageLedger.ShrinkStable | src/components/ImageGenerator.jsx:117-156 | reading a stored list back and saving it again writes the same list |
| ImageLedger.RunAttempts | src/components/ImageGenerator.jsx:37-54 | one call in the chosen mode; exactly one more call, in test mode, exactly when the first failed with `insufficient_funds` outside test mode |
| ImageLedger.ExtractUrl | src/components/ImageGenerator.jsx:59-66 | the URL is the text of a truthy `src`, else the result itself when it is a string, and there is none exactly when neither applies |
| ImageLedger.Generate | src/components/ImageGenerator.jsx:37-76 | a rejection of the last call fails with its error; a produced result with a URL creates a record with that URL, the given id and time, the first 100 characters of the prompt, and `testMode` true exactly when test mode was on or the fallback ran; a produced result without a URL fails with the missing-URL error; `switched` holds exactly when the fallback call ran and produced a result |
| ImageLedger.FailureMessage | src/components/ImageGenerator.jsx:100-109 | the alert reports the credit notice on `insufficient_funds`, else `error.error.message`, else `error.message`, else the retry notice |
| ImageLedger.MissingUrlReported | src/components/ImageGenerator.jsx:59-109 | a produced result without a URL fails the generation, and the alert shows the missing-URL message |
| ImageLedger.RemoveImage | src/components/ImageGenerator.jsx:161 | deleting keeps exactly the images with another id, each as often as before, in their order, and changes nothing when the id is absent |
| ImageLedger.ImageLedger.LoadSavedImages | src/components/ImageGenerator.jsx:14-23 | a stored image list is adopted; otherwise the list is left alone |
| ImageLedger.ImageLedger.SaveImagesToStorage | src/components/ImageGenerator.jsx:117-157 | the store receives the shrink plan's records exactly when the plan persists and the write succeeds, and is unchanged otherwise |
| ImageLedger.ImageLedger.GenerateImage | src/components/ImageGenerator.jsx:25-115 | a blank prompt or a pending generation changes nothing; a created image is appended and kept even when storing fails, and the prompt is cleared; a failure leaves images and prompt alone; test mode turns on after a successful fallback or an `insufficient_funds` failure |
| ImageLedger.ImageLedger.DeleteImage | src/components/ImageGenerator.jsx:159-177 | the image is removed from the list; the rest is stored only when one of them still has a real URL |
| SavedChats.GetModelDisplay | src/components/SavedData.jsx:80-99 | a known model id shows its (non-empty) display name, any other id shows itself |
| SavedChats.DisplayIdempotent | src/components/SavedData.jsx:80-99 | showing a shown name again changes nothing |
| SavedChats.DisplayDistinguishesKnown | src/components/SavedData.jsx:81-97 | two known models never share a display name |
| SavedChats.PreviewLine | src/components/SavedData.jsx:104 | a line is the role icon, a space and the content, cut to 100 characters and followed by `...` exactly when it was longer |
| SavedChats.PreviewLineSingle | src/components/SavedData.jsx:104 | a line of single-line content holds no line break |
| SavedChats.PreviewLines | src/components/SavedData.jsx:103-104 | one line per message among the first three, in order |
| SavedChats.FormatChatPreview | src/components/SavedData.jsx:101-106 | an empty conversation previews as `Không có tin nhắn`; a single message previews as its line |
| SavedChats.PreviewAppend | src/components/SavedData.jsx:103-105 | a second or third message adds a line break and its own line at the end of the preview, so the lines follow the messages in order |
| SavedChats.PreviewLineCount | src/components/SavedData.jsx:103-105 | a preview of single-line messages has as many lines as messages shown, at most three |
| SavedChats.PreviewIgnoresLater | src/components/SavedData.jsx:103 | messages after the third do not change the preview |
| SavedChats.ChatProvider.LoadChatFromSaved | src/components/SavedData.jsx:10-21 | the chat is written as the current session and then becomes the current chat; a failed write does neither |
| SavedChats.SavedChatsPanel.LoadSavedChats | src/components/SavedData.jsx:39-48 | a stored list is adopted; otherwise the panel's list is left alone |
| SavedChats.SavedChatsPanel.DeleteChat | src/components/SavedData.jsx:50-58 | the list loses exactly the sessions with that id, in order, and is written to `savedChats` |
| SavedChats.SavedChatsPanel.LoadChat | src/components/SavedData.jsx:60-64 | with a provider present, loading hands the chat to it |
| ThemePreference.Toggled | src/components/ThemeContext.jsx:64 | the new theme is dark exactly when the old one was light, and light otherwise |
| ThemePreference.ToggleTwice | src/components/ThemeContext.jsx:63 | toggling twice restores the theme exactly when it was light or dark |
| ThemePreference.ToggleFlipsDark | src/components/ThemeContext.jsx:63-100 | after the first toggle, every toggle flips `isDark` |
| ThemePreference.SystemTheme | src/components/ThemeContext.jsx:50 | the system theme is dark exactly when the system prefers dark |
| ThemePreference.ResolveTheme | src/components/ThemeContext.jsx:32-61 | a non-empty stored remote value wins unvalidated; without one, the local value, then the system theme; a failed read gives the system theme; the result is never empty |
| ThemePreference.FailedReadIgnoresLocal | src/components/ThemeContext.jsx:53-57 | after a failed remote read the local value plays no part |
| ThemePreference.SavedThemeLoads | src/components/ThemeContext.jsx:35-47 | a theme written to both stores is the theme loaded next, with or without the platform |
| ThemePreference.StaleRemoteWins | src/components/ThemeContext.jsx:35-41 | for any non-empty remote theme and any local one, the remote theme is the one loaded; so after a failed remote write the older remote value beats the newer local copy |
| ThemePreference.ThemeProvider.LoadTheme | src/components/ThemeContext.jsx:32-61 | the theme becomes the resolved theme and loading ends |
| ThemePreference.ThemeProvider.SetThemeMode | src/components/ThemeContext.jsx:81-93 | the theme is set, written to the platform when it is there and the write succeeds, and always written to `localStorage` |
| ThemePreference.ThemeProvider.Toggle | src/components/ThemeContext.jsx:63-79 | the toggled theme is set and written as above |
| UploadSession.ImageFiles | src/components/ImageUploadComponent.jsx:36 | exactly the files whose type starts with `image/`, each as often as given, in order |
| UploadSession.FilePath | src/components/ImageUploadComponent.jsx:59-66 | for a non-empty array, the first element's `path` or `name`; otherwise a truthy `path`, else the response's `name` or, failing that, the file's own name; none exactly where a property of `null` or `undefined` is read |
| UploadSession.Describe | src/components/ImageUploadComponent.jsx:45-80 | a descriptor exists exactly when processing succeeds, and keeps the file's name, size and type with the chosen path |
| UploadSession.Uploads | src/components/ImageUploadComponent.jsx:45-85 | no more descriptors than files |
| UploadSession.UploadsAppend | src/components/ImageUploadComponent.jsx:45-85 | a failure on one file neither stops nor changes the uploads of the others |
| UploadSession.UploadsAreImages | src/components/ImageUploadComponent.jsx:36-80 | every uploaded descriptor is of an image type |
| UploadSession.UploadsAllSucceed | src/components/ImageUploadComponent.jsx:45-80 | when every file succeeds, each gets exactly one descriptor |
| UploadSession.RemoveUpload | src/components/ImageUploadComponent.jsx:230-240 | removing keeps exactly the descriptors with another id, each as often as before, in their order, and changes nothing when the id is absent |
| UploadSession.CustomResponse | src/components/ChatInterface.jsx:217-226 | the analysis text is a custom response exactly when it is truthy, even when its text is empty (an empty array); a non-empty string is handed over verbatim, any other truthy value as its `String()` text |
| UploadSession.AnalysisPrompt | src/components/ImageUploadComponent.jsx:104 | the analysis prompt is the question followed by a blank line and `[Phân tích ảnh: <file name>]` |
| UploadSession.AnalysisReply | src/components/ImageUploadComponent.jsx:113-127 | a string reply is used verbatim; else `message.content` (the first element's `text` or the element itself for an array); else `content`; any other reply yields the unreadable-reply notice |
| UploadSession.AnalysisAgreesWithChat | src/components/ImageUploadComponent.jsx:113-127 | on string, `message.content` and `content` replies the analysis text equals the chat's reply text |
| UploadSession.AnalyzeImage | src/components/ImageUploadComponent.jsx:100-166 | a successful analysis hands on the analysis prompt and its reply as the custom response; a failed one names the file and always carries a ready response: the fallback notice followed by the fallback answer, or, when the fallback fails too, the error prefix, the first error's `message` and the tips |
| UploadSession.VisionText | src/components/ImageUploadComponent.jsx:196-206 | a string reply is used verbatim; else `message.content` (the first element's `text` or the element itself for an array); any other reply yields the vision notice |
| UploadSession.ExtractText | src/components/ImageUploadComponent.jsx:168-228 | the response is always a ready one. An OCR text that is truthy follows the heading as its text (a non-empty string verbatim); a falsy one is replaced by the no-text notice. After a failed OCR, the vision heading is followed by the vision text, or, when the vision call fails too, the error prefix, the OCR error's `message` and the tips. The message names the file and says whether OCR succeeded |
| UploadSession.UploadPanel.HandleFiles | src/components/ImageUploadComponent.jsx:35-88 | with no image files nothing changes; otherwise the uploads of the image files are appended in order and uploading ends |
| UploadSession.UploadPanel.AppendUploads | src/components/ImageUploadComponent.jsx:45-85 | the loop over the accepted files appends exactly the uploads of all of them, in order |
| UploadSession.UploadPanel.RemoveImage | src/components/ImageUploadComponent.jsx:230-240 | the list becomes the removal above |

## Left out

- JSX rendering, the theme toggle button, scrolling, the drag-and-drop highlight and the `alert`s are not modelled, except for the text of the image generator's failure alert. They are presentation.
- ChatHistory.ChatManager.SendMessage: `isLoading` is never set to `true`, because each handler is atomic; the clause for a call made while a reply is pending therefore never applies here.
- `isAnalyzing` and the transient `true` of `isUploading` and `isGeneratingImage` inside one handler are not modelled. Each handler is atomic here, so these flags are never observed mid-call.
- Concurrent autosaves, React's deferred state updates and the effects that trigger `autoSaveChat` and the loads are not modelled. Each handler runs to completion on the state it starts from.
- `JSON.parse` and `JSON.stringify` of stored values: the store holds decoded values. Text that does not parse is `Unparseable`.
- A value of the wrong kind under a key is treated as unreadable: the load is skipped, or the history save gives up. An example is a single session under `savedChats`. In the code such a value would be adopted as is.
- Message content is a string. A non-string provider value is converted with JavaScript's `String()`, as a template literal would. The code keeps the raw value in the message instead.
- Lengths and `substring` count Unicode code points, not UTF-16 code units.
- Ids from `Date.now()` and `Date.now() + Math.random()`, and ISO timestamps, are parameters. The fractional upload ids are integers here.
- `formatFileSize`, downloads, clipboard, `window.open`, object URLs, `FileReader` and the `loadSavedChat` event are browser I/O and floating point.
- ImageLedger.ShrinkPlan: the byte size of the JSON text is a parameter, not computed from the records. The non-string timestamp branch (`new Date(ts).toISOString()`) is left out, because every record here has a string timestamp.
- ChatHistory.ChatManager.AutoSaveChat: the record's id fallback `Date.now()` (`ChatInterface.jsx:108`), its `lastUpdated` (`:111`) and the history entry's `timestamp` (`:133`) are taken as one clock reading, `writeClock`. The model does not tell apart the instants at which the code reads the clock.
- ImageLedger.ExtractUrl: a truthy non-string `src` is converted with `String()`. In the code it is kept as is, and the next save then fails.
- ImageLedger.ImageLedger.GenerateImage: the informational alerts are left out. These are the switch to test mode and the storage warning.
- SavedChats.SavedChatsPanel.LoadChat: the branch without a provider is left out. It writes the session and reloads the page, and a reload is outside the model. So is the panel's `selectedChat` preview selection, which only drives rendering.
- SavedChats.GetModelDisplay: ids that name built-in object properties (`constructor`, `toString`) are treated as unknown. In the code they return a function.
- The chat's own `getModelDisplay` (`ChatInterface.jsx`) only feeds rendering.
- UploadSession.AnalyzeImage: the exact wording of the fallback request sent to the provider is left out. Only its answer is modelled.
- Errors thrown as `null` or `undefined` are left out: the code reads `error.error` on them and throws again.
- `usePuter.js`, `AuthButton.jsx` and `App.jsx` are not part of this model.
