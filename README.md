# Privacy Vault journal — a Dafny model

Privacy Vault is a single-page journaling chat app. This project models its behaviour and proves properties about that model. The modelled parts are:

- **Client state.** The onboarding → chat → settings/journal view graph, the lifetime flag, and the persona catalog with its per-persona unlock flags. It also covers the payment-success redirect that unlocks a persona and the journal entries the client holds.
- **Chat session.** This covers the send guard (blank input, a pending reply, and the local crisis-keyword check) and the request built from the conversation and the persona prompt. It also covers the reply bubble and the "save to journal" mark.
- **Dictation.** This covers the speech-recognition transcript composition, the error-code → message table, the start/stop toggle and the automatic restart after the recognizer ends.
- **Server.** The journal table (insert with its `NOT NULL` and primary-key rules, list newest first, delete all) is modelled. So are the checkout-session parameters (price, product name and description, success/cancel URLs, origin fallback), the lazily created payment client and the health flag.

The modules follow the program's structure:

| file | module | what it holds |
|---|---|---|
| `wrappers.dfy` | `Wrappers` | `Option`, `Result` |
| `text.dfy` | `Text` | JavaScript `toLowerCase`/`toUpperCase` (ASCII), `trim`, `includes` |
| `query.dfy` | `Query` | `URLSearchParams` parsing of `location.search`, `Get` |
| `personas.dfy` | `Personas` | the persona catalog, unlocking, active-persona lookup |
| `checkout.dfy` | `Checkout` | `server.ts` checkout route, health flag, `getStripe` singleton (`PaymentGateway`) |
| `journal_store.dfy` | `JournalStore` | `server.ts` journal table as a class over a `seq` of rows |
| `chat.dfy` | `Chat` | `ChatInterface` state (`ChatSession`), safety check, dictation |
| `session.dfy` | `Session` | the top-level `App` state and its handlers |
| `scenarios.dfy` | `Scenarios` | properties that cross the client/server boundary |

The model makes these choices:

- **Network and other inputs.** Each network call's outcome is an input. `Delivered` means `fetch` resolved, whatever the HTTP status, because a 500 reply does not reject. `Threw` means it rejected. The same goes for the text generator's reply, the payment provider's session URL, `confirm`, the clock and `Math.random` ids.
- **Timestamps** are integers (milliseconds).
- **Component state** becomes a class whose methods update its fields. The client classes name the fields each method may change (`modifies this\`field`). The server classes `JournalStore.Table` and `Checkout.PaymentGateway` declare `modifies this`.
- **Chat view lifetime.** `Chat.ChatSession` is the state of the chat view, which is mounted only while `Session.App.step == ChatView`. Every entry into chat builds a fresh session. Each mount is the constructor followed at once by `ResetForPersona`, because the persona effect also runs on mount. So the "Hello" greeting is replaced by the "Switched to … mode" greeting, and the input, the loading flag and dictation all start afresh. Leaving chat for settings or the journal discards the session, together with its conversation and any pending reply.

The code does not enforce some invariants one might expect; the model follows the code:

- The active persona id is not kept among the unlocked personas. A success redirect naming an unknown id makes it active anyway. Lookup then falls back to the first persona (`Personas.ResolveUnknownIsDefault`).
- A journal save that reaches the server but fails there (HTTP 500) still adds the entry locally. The bubble is marked saved whatever the request does.
- "Incinerate" resets the client whenever the DELETE request resolves, including on a 500 reply.
- The server charges 999 cents for every persona, whatever price the card displays.

## Model

| member | source | states |
|---|---|---|
| Text.TrimEmptyIffBlank | src/App.tsx:767 | `trim()` yields the empty string exactly when every character is ECMAScript whitespace, so the blank-input guard rejects exactly the all-whitespace inputs |
| Text.TrimStartSpec | src/App.tsx:767 | the result is a suffix of the input, the dropped prefix is all whitespace, and the result does not start with whitespace |
| Text.TrimEndSpec | src/App.tsx:767 | the result is a prefix of the input, the dropped suffix is all whitespace, and the result does not end with whitespace |
| Text.Lower | src/App.tsx:763 | `toLowerCase` keeps the length and maps each ASCII capital to its small letter, leaving other characters alone |
| Text.Upper | src/App.tsx:763 | ASCII `toUpperCase`: keeps the length and maps each ASCII small letter to its capital |
| Text.LowerOfUpper | src/App.tsx:763 | under ASCII case mapping, lower-casing an upper-cased string gives the same as lower-casing the original |
| Text.IncludesIffOccurs | src/App.tsx:763 | `includes(k)` holds exactly when `k` occurs at some index of the string (an empty `k` always occurs) |
| Chat.AnyIncludedIff | src/App.tsx:763 | `keywords.some(k => s.includes(k))` holds exactly when some keyword occurs in `s` |
| Chat.SafetyCheckIff | src/App.tsx:761-764 | `runSafetyCheck` flags a text exactly when one of the five crisis phrases occurs in its lower-cased form |
| Chat.SafetyCheckIgnoresCase | src/App.tsx:761-764 | under ASCII case mapping, shouting a text in capitals does not change whether it is flagged |
| Chat.ShoutedKeywordIsFlagged | src/App.tsx:761-764 | a message containing a crisis phrase in capitals is flagged |
| Chat.SpeechErrorMessage | src/App.tsx:667-693 | `no-speech` is the only code without a message; every message is non-empty; `not-allowed` and `permission-denied` share the blocked-microphone message; an unknown code gets the generic message |
| Chat.ChatSession.OnSpeechError | src/App.tsx:666-701 | `no-speech` changes nothing; any other code shows its message, stops listening and marks the stop as deliberate |
| Chat.PartsCoverJoined | src/App.tsx:644-653 | the final and interim parts together are exactly as long as all the transcripts, so one of them is non-empty exactly when some result carries text |
| Chat.FullEndsWithSession | src/App.tsx:644-661 | the full transcript of all results ends with the transcript of the results from `resultIndex` on |
| Chat.ComposeTranscript | src/App.tsx:641-661 | the two loops compute the final part and the interim part of the results from `resultIndex` on, and the concatenation of every result's transcript |
| Chat.DictatedInput | src/App.tsx:662 | the dictated input starts with the typed base and ends with the transcript; a single space sits between them exactly when the base is non-empty |
| Chat.ChatSession.OnSpeechResult | src/App.tsx:640-664 | when the new results carry any text, the input becomes the base followed by the whole transcript; otherwise the input is unchanged |
| Chat.ChatSession.ToggleListening | src/App.tsx:724-740 | while listening, a deliberate stop; otherwise the banner is cleared, restarts are allowed, the typed input becomes the base, and listening starts unless the recognizer refuses |
| Chat.ChatSession.RestartAfterEnd | src/App.tsx:704-720 | unless the stop was deliberate, the current input becomes the new base before the restart; after a deliberate stop nothing changes |
| Chat.ChatSession.SetInput | src/App.tsx:1042 | typing replaces the input |
| Chat.ChatSession.HandleSend | src/App.tsx:766-803 | blank input or a pending reply: nothing happens and no request; a crisis phrase: only the overlay opens, the input is kept and no request is made; otherwise the user message is appended, the input cleared, loading set, and the request carries every turn of the conversation with the persona's system instruction; saved marks stay on user messages |
| Chat.SystemInstruction | src/App.tsx:789-801 | the instruction starts with the persona prompt and is longer exactly when the lifetime unlock is on |
| Chat.Turns | src/App.tsx:796-799 | one turn per message, in order, carrying its role and text |
| Chat.ReplyText | src/App.tsx:805-818 | the reply bubble is never empty: the generated text, a fallback when it is empty, an apology when the call threw |
| Chat.ChatSession.ReceiveReply | src/App.tsx:805-821 | exactly one model bubble is appended and loading ends, whichever way the call settled |
| Chat.MarkSavedAt | src/App.tsx:946 | the list keeps its length, bubble `idx` is marked saved, and every other bubble is unchanged |
| Chat.ChatSession.MarkSaved | src/App.tsx:942-946 | the save button, shown only on unsaved user bubbles, marks that bubble and nothing else, whatever the save request does |
| Chat.ChatSession.ResetForPersona | src/App.tsx:751-759 | on every mount of the chat view and on every persona change, the conversation becomes a single greeting naming the persona |
| Chat.ChatSession.DismissCrisis | src/App.tsx:848 | the crisis overlay closes |
| Chat.ChatSession.DismissVoiceError | src/App.tsx:1009 | the voice banner clears |
| Chat.ChatSession.constructor | src/App.tsx:595-611 | a chat view mounted afresh holds one greeting naming the persona, an empty input, and no loading, listening, banner or overlay |
| Personas.CatalogFacts | src/App.tsx:70-135 | the catalog has seven personas with distinct non-empty ids, none of them `lifetime`; only the first, `default`, starts unlocked |
| Personas.CatalogIdsArePlain | src/App.tsx:70-135 | no catalog id contains `&`, `+` or `#`, so each one survives the trip through a query string |
| Personas.UnlockPersona | src/App.tsx:1139 | entries with the given id become unlocked; every other entry and the order are unchanged |
| Personas.UnlockKeepsCatalog | src/App.tsx:1139 | unlocking keeps the list a copy of the catalog, up to unlock flags, and never relocks a persona |
| Personas.UnlockedOnly | src/App.tsx:890 | the quick switcher lists exactly the unlocked personas |
| Personas.UnlockedOnlyKeepsOrder | src/App.tsx:890-893 | the filter keeps catalog order and multiplicity: its `k`-th button is the entry at the `k`-th unlocked position; those positions strictly increase and include every unlocked entry |
| Personas.FindPersona | src/App.tsx:1149 | `find` returns the first index whose id matches, or none when no entry has that id |
| Personas.Resolve | src/App.tsx:1149 | the active persona is the first entry with the active id, or the first entry when there is none |
| Personas.ResolveUnknownIsDefault | src/App.tsx:1149 | an id no persona has resolves to the `default` persona |
| Personas.ResolveOwnId | src/App.tsx:1149 | selecting a catalog entry by its own id makes exactly that entry active |
| Session.App.constructor | src/App.tsx:1093-1097 | first render: onboarding, no lifetime unlock, the catalog as shipped, `default` active, no journal entries |
| Session.App.ActivePersona | src/App.tsx:1149 | the active persona is always one of the listed personas |
| Session.App.OnJournalFetched | src/App.tsx:1113-1127 | only a 2xx reply replaces the entries, one per row in server order; a NULL timestamp becomes the epoch |
| Session.ToEntry | src/App.tsx:1118-1121 | a row keeps its id, text and summary; its timestamp carries over, or is 0 when NULL |
| Session.ToEntries | src/App.tsx:1118-1121 | one entry per row, in order |
| Session.App.HandleRedirect | src/App.tsx:1131-1147 | without `success=true` nothing changes; with it, `personaId=lifetime` turns on the lifetime flag, any other non-empty id unlocks that persona and makes it active, the query is cleared and chat shown; the marker never applies twice |
| Session.App.Start | src/App.tsx:301 | onboarding leads to chat only once the terms are accepted |
| Session.App.OpenSettings | src/App.tsx:1263 | chat opens settings, along an edge of the view graph |
| Session.App.OpenJournal | src/App.tsx:1264 | chat opens the journal, along an edge of the view graph |
| Session.App.CloseSettings | src/App.tsx:1276 | settings closes back to chat |
| Session.App.CloseJournal | src/App.tsx:1292 | the journal closes back to chat |
| Session.App.SelectInSettings | src/App.tsx:1283-1286 | clicking an unlocked card makes that persona active and returns to chat; a locked card does nothing |
| Session.App.QuickSwitch | src/App.tsx:1269 | a quick-switch click makes the chosen persona active, and it is unlocked |
| Session.App.Incinerate | src/App.tsx:1151-1165 | declined, or the DELETE request threw: nothing changes; otherwise journal, lifetime flag, personas, active persona and view all return to the first-render state |
| Session.App.SaveEntry | src/App.tsx:1221-1240 | the posted body carries the id, text, time and stub summary; unless the request threw, the entry is put in front of the list |
| Session.UnlockRequest | src/App.tsx:1172-1175 | the lifetime button asks for the `lifetime` product with the user's e-mail |
| Session.BuyPersonaRequest | src/App.tsx:1199-1202 | a persona purchase asks for that persona's id with the user's e-mail and no price id |
| Query.SplitPast | src/App.tsx:1132 | splitting on `&` yields the text before the first separator as one piece, followed by the pieces of the rest |
| Query.Get | src/App.tsx:1133-1134 | `get` is none exactly when no pair has the name, and otherwise the value of the first pair with it |
| Query.Search | src/App.tsx:1132 | `location.search` is empty or starts with `?` |
| Query.SearchOfQuery | src/App.tsx:1132 | for a URL with no fragment, `location.search` is `?` followed by the query |
| Query.ParseTwoPairs | src/App.tsx:1132-1134 | a query of two plain `name=value` pairs parses to exactly those pairs, in order |
| Checkout.Origin | server.ts:50 | the origin is never empty: the request header when non-empty, else the configured app URL when non-empty, else `http://localhost:3000` |
| Checkout.SessionParamsFor | server.ts:51-78 | the session charges 4999 cents exactly for `lifetime` and 999 cents otherwise, for one item in USD; it carries the e-mail and persona id, and success/cancel URLs built on the origin |
| Checkout.TierIsConsistent | server.ts:58-63 | the price, the product name and the description always agree on whether the purchase is the lifetime unlock |
| Checkout.Health | server.ts:41-43 | the health report says the payment key is configured exactly when it is present and non-empty |
| Checkout.PaymentGateway.constructor | server.ts:21 | the server starts with no payment client |
| Checkout.PaymentGateway.GetStripe | server.ts:23-32 | a cached client is returned as is; without one, a missing or empty key is an error and leaves none cached, and a present key creates and caches a client |
| Checkout.PaymentGateway.CreateCheckoutSession | server.ts:45-85 | a cached payment client is kept; without one, a present key creates and caches a client built from it, and a missing or empty key leaves none and replies with the missing-key error, sending nothing; otherwise the parameters sent are the checkout rules applied to the body and origin, and the reply is the provider's URL or its error |
| Scenarios.SuccessUrlRoundTrip | server.ts:70 | for an origin without `?` or `#` and a persona id of URL-safe characters (every catalog id), the success URL the server builds, read back by the client's redirect handler, yields `success=true` and that same persona id |
| Scenarios.ClientRequestsMeetPriceRule | server.ts:58-63 | the lifetime button is charged 4999 cents and every catalog persona 999 cents |
| JournalStore.InsertByTime | server.ts:90 | inserting into a newest-first list keeps it newest first and adds exactly that row |
| JournalStore.NewestFirstOrder | server.ts:90 | `ORDER BY timestamp DESC` yields a permutation of the rows, newest first, NULL timestamps last |
| JournalStore.Table.constructor | server.ts:12-19 | the table starts empty |
| JournalStore.Table.Insert | server.ts:97-110 | a missing text fails the `NOT NULL` rule, then a duplicate id fails the primary-key rule, both leaving the table unchanged; otherwise the row is appended; ids stay unique |
| JournalStore.Table.List | server.ts:88-95 | the listing holds every stored row exactly once, newest first, and changes nothing |
| JournalStore.Table.DeleteAll | server.ts:112-119 | every row is deleted and the reply is success |

## Left out

- Rendering, styling, animation, icons, persona descriptions and the avatar are not modelled. They carry no state beyond what is listed above.
- The text-generation call is not modelled; its reply is an input (`ReplyOutcome`). The model name and the API key are not modelled.
- The payment provider's session creation is not modelled; its URL or error is an input to `CreateCheckoutSession`.
- The HTTP framework, the dev-server middleware and `listen` are not modelled; route replies are the `Reply` and `CheckoutReply` values.
- The browser speech-recognition object is an input: its result list, error codes, and whether `start` throws.
- The 100 ms delay before a restart is not modelled; the restart itself is the separate step `RestartAfterEnd`.
- The 8-second banner timer is the same step as the close button, `DismissVoiceError`. "Try Again" is that step followed by `ToggleListening`.
- The click-outside listener that stops dictation is not modelled (a DOM event outside the input area).
- `latestInputRef` always mirrors `input`, so the model reads `input` directly.
- `alert`, `window.open` and the `location.href` fallback are not modelled.
- `history.replaceState` is modelled only as clearing `search`.
- `confirm` is a boolean input.
- `Math.random` ids and the clock are inputs. Dates are integers; ISO date strings, locale formatting, and SQLite's textual ordering of stored dates are not modelled.
- The SQL engine is not modelled. The table is a sequence of rows in insertion order. Database failures other than the two constraint violations (disk, lock, malformed bodies) are not modelled, and neither are non-string JSON values.
- A missing `id`, which SQLite accepts in a text primary key, is not modelled.
- JournalStore.NewestFirstOrder: rows with equal timestamps may come back in any order in SQLite; the contract states sortedness and permutation, not a particular tie order.
- Text.Lower: case mapping covers ASCII letters only, not the full Unicode case tables of `toLowerCase`.
- Query.ParseSearch: percent-decoding is not modelled. The round trip is proved only for ids made of ASCII letters, digits, `-`, `_` and `.`, which no parsing step rewrites.
- Query.Search: the browser's URL parser normalisation is not modelled (removing tab, LF and CR, stripping leading and trailing spaces, percent-encoding spaces and other characters). The contract gives the shape of `search`. `Query.SearchOfQuery` gives its value for a URL without a fragment; that value matches the browser only when the URL holds no character the parser rewrites.
- Text.Upper: case mapping covers ASCII letters only. JavaScript's `toUpperCase` also maps, for example, `ß` to `SS` (changing the length) and `ı`, `ſ` to `I`, `S`.
- Text.LowerOfUpper: holds for the ASCII case mapping only. Under JavaScript's full mapping, `ı` upper-cases to `I` and then lower-cases to `i`.
- Chat.SafetyCheckIgnoresCase: holds for the ASCII case mapping only. The program does not flag `kıll myself` (dotless ı), but it does flag its upper-cased form `KILL MYSELF`.
- Chat.ChatSession: the session exists only while the app shows the chat view. The model does not tie its lifetime to `Session.App.step`: each mount is the constructor followed by `ResetForPersona`, and leaving chat discards the session, including a pending reply whose settling then updates nothing.
- Concurrency is not modelled: the overlap of pending requests and the order in which their replies land.
- The mount-time health fetch is not modelled; it only logs. So is console output.
- The journal view's free-tier banner is not modelled; it is display only.
- `handleUnlock` and `handleBuyPersona` are modelled only as the bodies they post (`UnlockRequest`, `BuyPersonaRequest`). Their reply handling opens a window or shows an alert.
- Session.App.Start, OpenSettings, OpenJournal, CloseSettings, CloseJournal, SelectInSettings, QuickSwitch and Incinerate require the view in which their button is rendered. The callbacks exist only there.
- Chat.SystemInstruction: the contract states the prefix and when the context is added. It does not spell out the text of the memory context.
