# Grove Studio core, modelled in Dafny

Grove Studio is a desktop chat client for cloud large-language models. Its Go
backend exposes services to the web frontend:

- a store of configured cloud models: name, provider, endpoint, API key and an enabled flag;
- conversations, with a paged and searchable listing;
- the messages of each conversation;
- a key/value settings store;
- the chat request itself: check the request, resolve the model and the
  conversation, load a bounded history window, build the prompt, stream the
  provider's answer back to the frontend as events, and persist the question
  and the answer;
- a mock streaming service that types out a canned reply one character at a time.

The frontend keeps a constant table of known providers with lookup helpers.
Two versions of that table exist, `frontend` and `frontend-back`.

## The modules

- `Models` holds the four persisted records, the base columns (id, CreatedAt,
  UpdatedAt), the error vocabulary, and Go's 64-bit `int` with its
  wrap-around (`Wrap64`).
- `Database` models the SQLite database behind GORM.
  - A `Table<T>` is its rows in insertion order plus the id the next INSERT
    receives. Ids are fresh and increase along the rows (autoincrement).
  - `Database.Db` is a class with one such table per record kind. Its methods
    are the INSERT, Save, UPDATE and DELETE statements the services issue.
    Each takes the storage engine's verdict `fail`, and a failed statement
    changes nothing.
  - The unique index on `Setting.key` makes the INSERT of a stored key fail.
  - Lookup, paging and the effect of each write are functions with lemmas
    relating a lookup after a write to the lookup before it.
  - A listing without `ORDER BY` is taken to return rows in insertion order.
    `Offset(n)` with `n <= 0` adds no OFFSET clause. The offset
    `(page - 1) * size` is the 64-bit product Go computes.
- `CloudLLMModelService`, `ConversationService`, `SettingService`,
  `MessageService` and `AiService` follow the Go services of the same names,
  one module per file.
  - Each method takes the database object, and the clock (`now`) where a
    timestamp is written.
  - The chat provider is a function from the API key and the completion
    options to the stream it answers with. Emitted events are returned as a
    sequence.
- `LLMProviders` and `LLMProvidersBack` are the two frontend provider tables
  and their lookups.

## Points worth knowing

- The conversation listing raises any page size below 50 to 50. The message
  listing raises sizes below 20 to 20. The model listing replaces sizes
  below 1 by 10.
- The conversation search is SQLite's `title LIKE '%search%'`. It ignores the
  case of ASCII letters only.
- The request hands only the model's API key to the provider client
  (`message_service.go:223`). The stored endpoint is not used.
- A history length of 0 gives `Limit(0)`. The model takes this as `LIMIT 0`, which returns no history. That is what GORM releases whose `clause.Limit` holds a `*int` send. Older releases leave a zero limit out and would return the whole conversation. The GORM version is not part of this model.
- In `frontend-back`, the siliconflow entry lists `THUDM/GLM-4-9B-0414` twice
  (lines 43-44). `LLMProvidersBack.SiliconflowListsAModelTwice` pins this down.

## Model

| member | source | states |
|---|---|---|
| Models.Wrap64 | internal/services/cloud_llm_model_service.go:50 | Go's 64-bit `int` arithmetic: the identity inside the int64 range, and always congruent to the exact value modulo 2^64 |
| Database.Inserted | internal/models/base.go:9 | an INSERT keeps the old rows as they were, appends exactly the new row after them, and advances the id counter by one |
| Database.InsertedWellFormed | internal/models/base.go:9 | inserting a row under the next id keeps primary keys increasing and below the counter |
| Database.FindByKey | internal/services/cloud_llm_model_service.go:64 | `First(&row, id)` finds a row with that primary key, and finds nothing exactly when no row has it |
| Database.FindByKeyAt | internal/models/base.go:9 | with increasing primary keys, the lookup of a row's own id returns that row |
| Database.FindByKeyUnique | internal/models/base.go:9 | with increasing primary keys, every stored row is the one its id finds |
| Database.FindAfterInsert | internal/services/cloud_llm_model_service.go:77 | after an INSERT the new id finds the new row, and every other id finds what it found before |
| Database.Replaced | internal/services/cloud_llm_model_service.go:98 | a Save overwrites the row with the saved row's id, keeps every other row, and keeps the row count |
| Database.ReplacedWellFormed | internal/services/cloud_llm_model_service.go:98 | a Save keeps the table's primary-key invariant |
| Database.FindAfterReplace | internal/services/cloud_llm_model_service.go:98 | after saving an existing row, its id finds the saved row and every other id finds what it found before |
| Database.Removed | internal/services/cloud_llm_model_service.go:112 | `DELETE ... WHERE id = ?` keeps exactly the rows with another id, drops none of them, and keeps the id counter |
| Database.ReplacedByItself | internal/services/setting_service.go:34 | saving a row unchanged leaves the table unchanged |
| Database.RemovedWellFormed | internal/services/cloud_llm_model_service.go:112 | a DELETE keeps the table's primary-key invariant |
| Database.FindAfterRemove | internal/services/cloud_llm_model_service.go:112 | after `DELETE ... WHERE id = ?` that id finds nothing, and every other id finds what it found before |
| Database.EnabledSet | internal/services/cloud_llm_model_service.go:125 | `Update("enabled", v)` sets the flag and UpdatedAt of the row with that id only, and changes no other column |
| Database.GormOffset | internal/services/cloud_llm_model_service.go:50 | GORM's `Offset(n)` sends n when positive and no OFFSET (start at row 0) otherwise |
| Database.FindAfterEnabledSet | internal/services/cloud_llm_model_service.go:125 | after the toggle, the id finds its old row with the new flag; every other lookup is unchanged; a missing id stays missing |
| Database.PageOffset | internal/services/cloud_llm_model_service.go:50 | the OFFSET GORM receives equals `(page - 1) * size` whenever that product fits in 64 bits |
| Database.Page | internal/services/cloud_llm_model_service.go:50 | `Offset(..).Limit(size).Find` returns at most `size` rows, exactly the rows from the offset on, in storage order |
| Database.PageAt | internal/services/conversation_service.go:47 | item k of page p is row `(p - 1) * size + k` whenever that row exists and the offset fits in 64 bits |
| Database.RowPosition | internal/services/cloud_llm_model_service.go:50 | every row index i is reachable: it is item `i % size` of page `i / size + 1`, whose offset fits in 64 bits |
| Database.Db.constructor | internal/database/database.go:13 | an empty database whose counters start at 1 satisfies the table invariants |
| Database.Db.CreateModel | internal/services/cloud_llm_model_service.go:77 | a failed INSERT changes nothing; otherwise the model gets the next id and filled timestamps and is appended |
| Database.Db.SaveModel | internal/services/cloud_llm_model_service.go:98 | a failed Save changes nothing; otherwise the stored row becomes the given model with a fresh UpdatedAt |
| Database.Db.DeleteModel | internal/services/cloud_llm_model_service.go:112 | a failed DELETE changes nothing; otherwise the row with that id is gone and every other table is untouched |
| Database.Db.UpdateModelEnabled | internal/services/cloud_llm_model_service.go:125 | a failed UPDATE changes nothing; otherwise the models table becomes `EnabledSet` of the old rows |
| Database.Db.CreateConversation | internal/services/message_service.go:115 | a failed INSERT changes nothing; otherwise an empty conversation under the next id is appended and returned |
| Database.Db.CreateMessage | internal/services/message_service.go:181 | a failed INSERT changes nothing; otherwise the message is appended under the next id with both timestamps set to now |
| Database.Db.CreateSetting | internal/models/setting.go:6 | the INSERT fails, changing nothing, when the engine fails or the key is already stored; otherwise it succeeds and appends the new setting under the next id |
| Database.Db.SaveSetting | internal/services/setting_service.go:34 | a failed Save changes nothing; otherwise the stored setting is overwritten with a fresh UpdatedAt and keys stay unique |
| CloudLLMModelService.ClampPage | internal/services/cloud_llm_model_service.go:33-35 | a page below 1 becomes 1; a page of at least 1 is kept |
| CloudLLMModelService.ClampSize | internal/services/cloud_llm_model_service.go:36-38 | the queried size is the caller's when positive and 10 otherwise |
| CloudLLMModelService.GetList | internal/services/cloud_llm_model_service.go:32-59 | the total is the table's row count; the page holds exactly the rows left after the offset of the clamped page, up to the clamped size, all from the table |
| CloudLLMModelService.FirstPageIsPrefix | internal/services/cloud_llm_model_service.go:50 | page 1 (or any page below 1) is the first `size` rows of the table |
| CloudLLMModelService.GetListItemAt | internal/services/cloud_llm_model_service.go:32-50 | for any requested page and size, item k of the result is model number `(p - 1) * n + k`, where p and n are the clamped page and size |
| CloudLLMModelService.GetByID | internal/services/cloud_llm_model_service.go:62-69 | succeeds exactly when a model has that id, returning it; otherwise RecordNotFound |
| CloudLLMModelService.Create | internal/services/cloud_llm_model_service.go:72-82 | a missing name, provider or API key is rejected with nothing written; a failed INSERT writes nothing; otherwise the stamped model is appended and GetByID of its new id returns it |
| CloudLLMModelService.Update | internal/services/cloud_llm_model_service.go:85-103 | id 0 is rejected, then an id no row has, then a failed Save; otherwise that row becomes the given model with a fresh UpdatedAt |
| CloudLLMModelService.GetByIDAfterUpdate | internal/services/cloud_llm_model_service.go:98 | after an update the model reads back as written and every other id reads as before |
| CloudLLMModelService.Delete | internal/services/cloud_llm_model_service.go:106-117 | id 0 is rejected with nothing written; otherwise the row with that id, if any, is deleted |
| CloudLLMModelService.GetByIDAfterDelete | internal/services/cloud_llm_model_service.go:112 | after a delete the id is RecordNotFound and every other id reads as before |
| CloudLLMModelService.ToggleEnabled | internal/services/cloud_llm_model_service.go:120-130 | id 0 is rejected with nothing written; otherwise only the flag and UpdatedAt of that row change |
| CloudLLMModelService.GetByIDAfterToggle | internal/services/cloud_llm_model_service.go:125 | after a toggle the model reads back with the new flag; every other model reads as before |
| ConversationService.LowerAscii | internal/services/conversation_service.go:37 | LIKE's case folding: an ASCII capital becomes the lower-case letter 32 code points up; any other character is kept |
| ConversationService.Folded | internal/services/conversation_service.go:37 | folding keeps the length and folds each character |
| ConversationService.Contains | internal/services/conversation_service.go:37 | the scan answers true exactly when the search string occurs at some position of the title |
| ConversationService.Matching | internal/services/conversation_service.go:35-38 | the counted and paged conversations are the table filtered by the title match, in table order and with nothing repeated or added; an empty search keeps the whole table |
| ConversationService.EmptySearchMatchesAll | internal/services/conversation_service.go:36-38 | an empty search applies no filter: every title matches |
| ConversationService.SearchIgnoresAsciiCase | internal/services/conversation_service.go:37 | two searches differing only in ASCII case select the same conversations |
| ConversationService.PageSize | internal/services/conversation_service.go:30 | any size below 50 becomes 50; a size of at least 50 is kept |
| ConversationService.GetList | internal/services/conversation_service.go:28-56 | the total is the number of matching conversations; the page holds exactly the matches left after the offset, up to the page size, all matching |
| ConversationService.GetListItemAt | internal/services/conversation_service.go:29-47 | for any requested page and size, item k of the result is match number `(p - 1) * n + k`, where p is the page raised to 1 and n the size raised to 50 |
| SettingService.FindSetting | internal/services/setting_service.go:19 | `Where("key = ?").First` finds a setting stored under the key, and finds nothing exactly when none is |
| SettingService.FindSettingAt | internal/models/setting.go:6 | under the unique index, the lookup of a stored setting's key returns that setting |
| SettingService.GetSetting | internal/services/setting_service.go:17-24 | succeeds exactly when the key is stored, with the value of a row under that key; otherwise RecordNotFound |
| SettingService.GetSettingUnique | internal/services/setting_service.go:17-24 | under the unique index, GetSetting returns the value of the one row with that key |
| SettingService.ReplacedKeys | internal/services/setting_service.go:31-34 | saving a setting under its own key moves no key |
| SettingService.UpsertValid | internal/services/setting_service.go:27-42 | a successful SetSetting keeps the primary-key invariant and the unique keys |
| SettingService.Upsert | internal/services/setting_service.go:27-42 | the upsert adds a row exactly when the key was not stored, otherwise keeps the row count, and always leaves a row holding the key with the new value |
| SettingService.FindAfterSet | internal/services/setting_service.go:27-42 | after SetSetting the key finds the old row with the new value, or a fresh row when the key was new |
| SettingService.GetAfterSet | internal/services/setting_service.go:27-42 | after SetSetting(key, value), GetSetting(key) returns value |
| SettingService.OtherKeysUnchanged | internal/services/setting_service.go:27-42 | SetSetting(key, ..) leaves GetSetting of every other key as it was |
| SettingService.UpsertIdempotent | internal/services/setting_service.go:27-42 | setting the same value twice at one instant leaves the same table as setting it once |
| SettingService.SetSetting | internal/services/setting_service.go:27-42 | a failed write changes nothing; otherwise the settings table becomes the upsert of the key and value |
| MessageService.ValidateRequestParams | internal/services/message_service.go:69-83 | passes exactly when the model id is positive, question and model name are non-empty and the temperature is positive; otherwise it reports the first failed check in source order |
| MessageService.ResolveModel | internal/services/message_service.go:91-99 | succeeds exactly when a nonzero id names a stored model, returning it; an unknown id is RecordNotFound |
| MessageService.ResolveConversation | internal/services/message_service.go:102-110 | succeeds exactly when a nonzero id names a stored conversation, returning it; an unknown id is RecordNotFound |
| MessageService.History | internal/services/message_service.go:111 | the history query returns at most the limit of messages, each a stored message of that conversation |
| MessageService.HistoryWindow | internal/services/message_service.go:111 | the history holds min(limit, all) messages of the conversation, the k-th being its k-th newest |
| MessageService.HistoryDescending | internal/services/message_service.go:111 | the history window is in descending id order |
| MessageService.GetModelAndConversation | internal/services/message_service.go:86-121 | a failed model lookup fails and writes nothing; a positive conversation id loads that conversation and its history window and writes nothing; otherwise one empty conversation is created, or the failed INSERT is reported |
| MessageService.PrepareMessages | internal/services/message_service.go:124-137 | the prompt is the history walked backwards, translated, followed by the question |
| MessageService.Chronological | internal/services/message_service.go:126-134 | the backward walk yields one prompt message per history message whose role is user or assistant; others are skipped |
| MessageService.ChronologicalIsReversed | internal/services/message_service.go:126-134 | the backward walk equals translating the reversed history in forward order, so the prompt is oldest first |
| MessageService.PromptShape | internal/services/message_service.go:124-137 | the prompt has one entry per user or assistant message plus the question, which comes last |
| MessageService.HandleStreamResponse | internal/services/message_service.go:140-171 | the emitted events are those the protocol prescribes for the chunks; a failed stream reports the error, otherwise the accumulator is returned |
| MessageService.ChunkEventsFragments | internal/services/message_service.go:147-162 | of one chunk's events, only the delta event, present when the delta is non-empty, is a fragment |
| MessageService.Events | internal/services/message_service.go:144-162 | the loop emits one event per non-empty first-choice delta plus one per chunk after which content has just finished |
| MessageService.FragmentsStep | internal/services/message_service.go:144-162 | one more chunk adds at most its own fragment event, indexed by the fragments before it |
| MessageService.FragmentEventsInOrder | internal/services/message_service.go:155-161 | the k-th fragment event carries the k-th non-empty delta and index k |
| MessageService.FragmentsExtended | internal/services/message_service.go:155-161 | the in-order correspondence survives one more chunk |
| MessageService.EventIndicesCountFragments | internal/services/message_service.go:142-162 | every event's index is the number of fragment events before it; done events are empty and fragments are not |
| MessageService.IndicesExtended | internal/services/message_service.go:142-162 | the index property survives one more chunk's events |
| MessageService.DoneEventsPerFinishedChunk | internal/services/message_service.go:147-153 | one done event is emitted per chunk after which content has just finished |
| MessageService.AppendedTurn | internal/services/message_service.go:174-196 | the saved turn is the old rows followed by the user question under the next id and the assistant response under the id after it, both in the conversation |
| MessageService.TurnIsTwoAppends | internal/services/message_service.go:174-196 | a saved turn appends the question as a user row and then the response as an assistant row, in that conversation, with fresh increasing ids |
| MessageService.SaveMessages | internal/services/message_service.go:174-196 | a failed user INSERT writes nothing; a failed assistant INSERT leaves only the user row; otherwise both rows are appended |
| MessageService.CompletionRequest | internal/services/message_service.go:211-221 | the options carry the prompt, the model name and the temperature and always request usage; a completion cap is sent exactly when the requested cap is positive |
| MessageService.Exchange | internal/services/message_service.go:209-235 | the prompt is sent with the model's key and the stream's events are emitted; stream failure or no choices writes no message; otherwise the turn is saved and the tokens are returned only when both inserts succeed |
| MessageService.Request | internal/services/message_service.go:199-236 | invalid input changes nothing and emits nothing; the request is sent exactly when validation and resolution succeed; exactly one conversation is created when none is named and the model resolves, and it stays whatever the stream does, while every other path leaves the conversations unchanged; the prompt is the history oldest first plus the question, and the outcome is stored under the requested or the newly created conversation |
| MessageService.GetList | internal/services/message_service.go:45-66 | a negative conversation id is rejected; a positive cursor makes the query fail on the missing `min_id` column; otherwise the first `max(size, 20)` messages of the conversation in id order |
| MessageService.GetListBefore | internal/services/message_service.go:45-66 | the corrected listing: the first `max(size, 20)` messages of the conversation that are older than a positive cursor, in table order, and all of them when fewer exist |
| MessageService.GetListBeforeOrdered | internal/services/message_service.go:54-60 | the corrected cursor page is in increasing id order |
| MessageService.CursorPageFindsOlderMessage | internal/services/message_service.go:57-59 | on one table with an older message, the listing as written fails while the corrected one returns that message |
| AiService.MockResponse | internal/services/ai_service.go:23 | the reply is the fixed greeting followed by the user's message |
| AiService.Singletons | internal/services/ai_service.go:25-27 | the split gives one one-character string per character, in order |
| AiService.MockEvents | internal/services/ai_service.go:30-45 | one `done: "false"` event per character of the reply, carrying that character, in order, then one more; exactly the last is terminal, and it is empty |
| AiService.SendMessageStream | internal/services/ai_service.go:21-48 | never fails, and emits one `done: "false"` event per character of the reply and then the terminal event |
| AiService.ConcatSingletons | internal/services/ai_service.go:25-27 | joining the split pieces gives back the reply |
| AiService.FragmentsRebuildResponse | internal/services/ai_service.go:30-35 | the contents of the non-terminal events, joined, are the full reply |
| LLMProviders.GetProviderById | frontend/src/constants/LLMProviders.ts:33-35 | `find` returns a table entry with that id, nothing exactly when no entry has it, and the first entry that has it |
| LLMProviders.GetProviderIcon | frontend/src/constants/LLMProviders.ts:38-41 | the found provider's icon, or the default icon |
| LLMProviders.GetProviderModels | frontend/src/constants/LLMProviders.ts:44-47 | the first matching provider's models, or the empty list for an unknown id |
| LLMProviders.IdsDistinct | frontend/src/constants/LLMProviders.ts:13-30 | no two providers share an id |
| LLMProviders.EachIdResolves | frontend/src/constants/LLMProviders.ts:13-30 | every provider in the table is found by its own id, with its own models and icon |
| LLMProviders.OpenAIModels | frontend/src/constants/LLMProviders.ts:20 | the openai provider lists gpt-4 and gpt-3.5-turbo |
| LLMProvidersBack.GetProviderById | frontend-back/src/constants/LLMProviders.ts:184-186 | `find` returns a table entry with that id, nothing exactly when no entry has it, and the first entry that has it |
| LLMProvidersBack.GetProviderIcon | frontend-back/src/constants/LLMProviders.ts:189-192 | the found provider's icon, or the default icon |
| LLMProvidersBack.GetProviderModels | frontend-back/src/constants/LLMProviders.ts:195-198 | the first matching provider's models, or the empty list for an unknown id |
| LLMProvidersBack.IdsDistinct | frontend-back/src/constants/LLMProviders.ts:12-181 | no two of the twelve providers share an id |
| LLMProvidersBack.EachIdResolves | frontend-back/src/constants/LLMProviders.ts:12-181 | every provider in the table is found by its own id, with its own models and icon |
| LLMProvidersBack.SiliconflowModels | frontend-back/src/constants/LLMProviders.ts:39-56 | the siliconflow lookup returns its sixteen-entry model list |
| LLMProvidersBack.SiliconflowListsAModelTwice | frontend-back/src/constants/LLMProviders.ts:43-44 | that list names `THUDM/GLM-4-9B-0414` at two consecutive positions |

## Left out

- The OpenAI client library is left out: its HTTP transport, server-sent-event decoding and `ChatCompletionAccumulator` internals. The stream is an input: its chunks, whether it ends in an error, the accumulated choices and the token count. Whether a chunk "just finished" content is a field of the chunk.
- The Wails `EventsEmit` runtime is left out. Emitted events are the returned sequence, and the frontend's handling of them is not modelled.
- `time.Sleep` in the mock stream is left out: timing has no observable effect on the events.
- Floating point is left out: the temperature is a `real`, and only its comparison with zero matters.
- LIKE wildcards inside the search string (`%`, `_`) are left out: the search is treated as a literal substring.
- Read-side driver failures other than "record not found" are left out: the `Count` and `Find` errors, and the ignored `Count` error at `cloud_llm_model_service.go:92`.
- Opening and closing the database file and its connection-pool settings are left out (`InitDB` and `CloseDB` in `internal/database/database.go`). So is the schema migration, which `app.go:65` runs for the settings table only. Start-up, configuration, logging and the path helpers are left out too. They are I/O.
- Concurrent requests are left out. Each operation runs alone on the database object.
- Invalid UTF-8 is left out: strings are sequences of characters. `range` over a string yields one rune per character.
- Frontend plumbing is left out: routing, toasts, the request wrapper, the stores and the generated bindings. It is all glue.
- The `internal/models` conversation file is not part of this model. A conversation has the base columns and a `title` (the column the search uses).
- CloudLLMModelService.Create: always assigns the next id. A caller-supplied nonzero ID, which GORM would insert as given, is not modelled.
- Database.Db.SaveModel: modelled only for a row that exists. Its only caller checks existence first. GORM's upsert for a missing primary key is left out.
- Database.Db.CreateSetting: a failed INSERT under the unique index carries the same `WriteFailed` as any other failed write. The driver's constraint message is not modelled.
- MessageService.SaveMessages: both rows are stamped with the same instant `now`.
- MessageService.Exchange: `acc.Choices[0]` on an empty choice list panics in Go. The model reports `NoChoices` and writes nothing, which is the state the panic leaves.

## Findings

| source | as written | input that shows it | evidently intended | confidence | as-written member | corrected member |
|---|---|---|---|---|---|---|
| internal/services/message_service.go:57-59 | the cursor filter is `min_id < ?`, and the message table has no `min_id` column, so any positive cursor makes the query fail | GetList(conversationId 1, minId 5, size 20) on a table holding message 3 of conversation 1 | messages older than the cursor, `id < minId` | not executed | MessageService.GetList, MessageService.CursorPageFindsOlderMessage | MessageService.GetListBefore, MessageService.GetListBeforeOrdered |
