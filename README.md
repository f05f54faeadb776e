# cat-chat conversation core, modelled in Dafny

This project models the two stateful parts of the cat-chat application.

**The backend conversation manager** is `AIService` in `speaken-backend/src/services/ai.service.ts`. It keeps a map from a conversation key to a transcript of role-tagged messages. The key is `voiceRole + "_" + voiceSpeed`. The first time a key is seen, its transcript is seeded with one system message holding the cat persona prompt. Each chat turn does four things:
- it pushes the user's message onto the stored transcript;
- it sends the whole transcript to the completion provider;
- it appends the assistant's reply (`null` becomes `""`);
- it returns the reply.

A provider failure is rethrown as one normalised error.

The model is in module `AIService` (`ai_service.dfy`). The pure functions `Resolved`, `Request` and `Respond` say what `getOrCreateConversation` and `generateResponse` do to the map. The class `AIService.AIService` holds the map as its field `history`. Its methods are proved to change the map exactly as those functions say. The lemmas beside them state the promised properties:
- the key decodes back to its role and speed, so distinct pairs never share a transcript;
- the system turn is created once and stays first;
- a successful turn adds exactly a user turn and an assistant turn;
- a failed turn adds only the user turn;
- other keys are untouched;
- N answered messages on a new key give 1 + 2N alternating turns.

The completion provider is a parameter `provider: Transcript -> ProviderOutcome`. The contracts can therefore say which transcript it was sent. A reply is `Completed(content)` with content `None` for JSON `null`. A thrown value is `Failed(cause)`, where the cause is either an `Error` with its message or something else. Speeds are rendered by module `Decimal` (`decimal.dfy`), whose parser `ParseInt` is the rendering's proved inverse. The request records are in module `ChatTypes` (`chat_types.dfy`).

**The frontend chat store** is `useChatStore` in `speaken-frontend/src/stores/chat.ts`. It holds the current cat (black or white), a recording flag, and a buffer of at most ten messages. Adding an eleventh message drops the oldest. The class `ChatStore.ChatStore` (`chat_store.dfy`) has those three fields. Its actions are specified by the functions `Switched`, `Pushed` and `WithLastContent`. `PushedAllKeepsMostRecent` proves the buffer always holds the ten most recent messages.

Two behaviours of the code are worth stating plainly:
- **A failed turn keeps the user message.** A failed provider call does not leave the stored transcript as it was. `getOrCreateConversation` returns the array held in the map (ai.service.ts:67), and the user turn is pushed onto that array (line 82) before the provider is called. So after a failure, the stored transcript ends with the user turn and has no assistant turn. `Respond` and `RespondFails` state this.
- **An empty reply is not an error.** The code turns `null` or `""` into an empty reply (line 97). `RespondEmptyContent` states this.

## Model

| member | source | states |
|---|---|---|
| `AIService.SystemPrompt` | speaken-backend/src/services/ai.service.ts:38-50 | the prompt is the fixed persona text whatever the settings, since both language branches return it |
| `AIService.ApiKeyPresent` | speaken-backend/src/services/ai.service.ts:21 | the key check fails exactly for an unset variable and an empty one, the two values `!` treats as false |
| `Decimal.IntToString` | speaken-backend/src/services/ai.service.ts:53 | the rendered speed is non-empty and made of digits, with at most a leading '-', so it never contains '_'; `ParseIntToString` and `IntToStringInjective` state that it loses nothing |
| `AIService.ConversationId` | speaken-backend/src/services/ai.service.ts:52-54 | the key's last '_' sits right after the role; before it is the role and after it the rendered speed; `ConversationIdDecodes` and `ConversationIdInjective` draw uniqueness from this |
| `AIService.ConversationIdDecodes` | speaken-backend/src/services/ai.service.ts:52-54 | splitting the key `voiceRole_voiceSpeed` at its last '_' and parsing the rest gives back exactly the role and the speed, even when the role contains '_' |
| `AIService.ConversationIdInjective` | speaken-backend/src/services/ai.service.ts:52-53 | two settings get the same key if and only if they have the same role and the same speed |
| `Decimal.IntToStringInjective` | speaken-backend/src/services/ai.service.ts:53 | distinct speeds render as distinct strings |
| `Decimal.ParseIntToString` | speaken-backend/src/services/ai.service.ts:53 | parsing the rendered speed gives back the speed |
| `AIService.Resolved` | speaken-backend/src/services/ai.service.ts:57-68 | afterwards the key is present; a key already seen leaves the map unchanged; a new key gets exactly one system turn with the persona prompt; every other key keeps its transcript; well-formed transcripts stay well-formed |
| `AIService.ResolvedIdempotent` | speaken-backend/src/services/ai.service.ts:59-66 | looking up a conversation a second time seeds nothing new |
| `AIService.NormalisedError` | speaken-backend/src/services/ai.service.ts:112-118 | the error message starts with the "AI服务错误: " prefix exactly when the cause is an `Error`, and the cause's message follows it; any other cause gives "AI服务未知错误" |
| `AIService.Request` | speaken-backend/src/services/ai.service.ts:79-92 | the provider is sent the stored transcript, or a freshly seeded one for a new key, followed by the user turn; with well-formed transcripts the persona system turn is first |
| `AIService.Respond` | speaken-backend/src/services/ai.service.ts:71-120 | the turn succeeds exactly when the provider completes; the stored transcript starts with what was sent and is one turn longer only on success; every other key is unchanged; `RespondSucceeds` and `RespondFails` give the exact contents |
| `AIService.RespondSucceeds` | speaken-backend/src/services/ai.service.ts:79-111 | on success the provider was sent the prior transcript plus the user turn; the reply is the content or ""; the stored transcript is the prior one plus the user turn and the assistant turn carrying the reply, two turns longer |
| `AIService.RespondEmptyContent` | speaken-backend/src/services/ai.service.ts:97 | a null or empty content yields the reply "" and not an error |
| `AIService.RespondFails` | speaken-backend/src/services/ai.service.ts:79-118 | on provider failure the normalised error is raised and the stored transcript is the prior one plus the user turn, with no assistant turn |
| `AIService.RespondIsolated` | speaken-backend/src/services/ai.service.ts:79-107 | a turn neither adds, removes nor changes the transcript of any other role/speed pair |
| `AIService.RespondKeepsWellFormed` | speaken-backend/src/services/ai.service.ts:57-107 | every stored transcript keeps the persona system turn first and no other system turn |
| `AIService.ConverseAppends` | speaken-backend/src/services/ai.service.ts:71-120 | while the provider answers, each message appends a user turn carrying it and then an assistant turn; the earlier transcript is a prefix of the new one and every other key is unchanged |
| `AIService.FreshConversation` | speaken-backend/src/services/ai.service.ts:57-111 | after N answered messages on a new key the transcript has 1 + 2N turns: the persona system turn, then user and assistant turns alternating, the user turns carrying the messages in order |
| `AIService.AIService.constructor` | speaken-backend/src/services/ai.service.ts:17-33 | a service is built only with a set, non-empty API key, which it keeps; it starts with no conversations |
| `AIService.AIService.Create` | speaken-backend/src/services/ai.service.ts:20-34 | the service is created if and only if the API key is set and non-empty; otherwise the missing-key error is returned |
| `AIService.AIService.GetOrCreateConversation` | speaken-backend/src/services/ai.service.ts:57-68 | the map becomes `Resolved` of the old map, and the returned transcript is the one stored under the key; it starts with the system turn |
| `AIService.AIService.GenerateResponse` | speaken-backend/src/services/ai.service.ts:71-120 | the returned reply or error and the new map are exactly those of `Respond` on the old map, and the object invariant is kept |
| `ChatStore.Switched` | speaken-frontend/src/stores/chat.ts:17 | the result is the other cat |
| `ChatStore.SwitchedTwice` | speaken-frontend/src/stores/chat.ts:17 | switching twice restores the original cat |
| `ChatStore.Pushed` | speaken-frontend/src/stores/chat.ts:23-31 | the new message is last; below ten messages it is simply appended; at ten the oldest is dropped; a buffer of at most ten stays at most ten |
| `ChatStore.WithLastContent` | speaken-frontend/src/stores/chat.ts:34-39 | the length and all earlier messages are unchanged; the last message gets the new content and keeps its sender and timestamp; an empty buffer stays empty |
| `ChatStore.PushedAllKeepsMostRecent` | speaken-frontend/src/stores/chat.ts:28-31 | after any series of additions the buffer is exactly the last ten messages of everything added, oldest first |
| `ChatStore.ChatStore.constructor` | speaken-frontend/src/stores/chat.ts:4-12 | the initial state is the black cat, no messages and not recording |
| `ChatStore.ChatStore.SwitchCat` | speaken-frontend/src/stores/chat.ts:15-19 | the cat is switched; the messages and the recording flag are unchanged, so the ten-message bound is kept |
| `ChatStore.ChatStore.AddMessage` | speaken-frontend/src/stores/chat.ts:21-32 | the messages become `Pushed` of the old ones with the new message, stamped with the given time; the ten-message bound is kept; the cat and the recording flag are unchanged |
| `ChatStore.ChatStore.UpdateLastMessage` | speaken-frontend/src/stores/chat.ts:34-39 | the messages become `WithLastContent` of the old ones; nothing happens on an empty buffer; the ten-message bound is kept; the cat and the recording flag are unchanged |
| `ChatStore.ChatStore.SetRecording` | speaken-frontend/src/stores/chat.ts:41-44 | the recording flag becomes the given status; the cat and the messages are unchanged, so the ten-message bound is kept |

## Left out

- The OpenAI/DeepSeek SDK call: it is the abstract `provider` parameter. The model, temperature and token-limit request fields are not modelled because they do not affect the service's state.
- The SDK's own behaviour inside one call: a response without a first choice throws a `TypeError` in the same `try`. The model folds that case into `Failed(ErrorCause(...))`.
- Environment reads, `dotenv`, the base-URL default and every `console.log`: these are I/O. The key check becomes the `apiKey` argument of `AIService.AIService.Create`.
- The commented-out translation code and the optional `translation` field: they are never set.
- Concurrency: two overlapping `generateResponse` calls on one key share one array across the `await`. This is not modelled; each call is atomic apart from its provider outcome.
- `AIService.ConversationId`: the speed is an unbounded integer rendered in plain decimal. These JavaScript numbers are not modelled: `NaN`, `Infinity` and `-Infinity`, which render as "NaN", "Infinity" and "-Infinity"; fractional speeds such as `1.5`; magnitudes of 10^21 and above, which a template literal renders in exponent form (`1e+21`); and integers beyond 2^53, which a JavaScript number cannot hold exactly.
- `Date.now()` in the chat store: it becomes the `now` argument of `AddMessage`.
- Aliasing of the frontend's message objects: `updateLastMessage` edits the object in place. The model replaces the last element of the `messages` sequence, which is the same as long as no one else holds a reference to that object.
- `PresetScene`, `PresetRole`, `ChatMessage` and `ChatResponse` in `speaken-backend/src/types/chat.ts`: they are unused by the core. The `gender` setting is kept in `ChatSettings` but is read by nothing.
- The Live2D widget, its configuration and the router: they are UI wiring with no state of the core.
