# Chat client: conversation pairing, contact projection and thread sync

This project models the in-memory logic of a two-party chat web client whose
persistence, queries and realtime push all live in a hosted store. What is
modelled is the logic the client itself runs between store calls:

- **Conversation pairing**: two user ids are ordered with JavaScript string `<`
  so that `user1_id` is the smaller one; this is what keeps each pair of users
  to one `conversations` row (`ConversationPair`, `MainPage.ResolveConversation`).
- **Contact-list projection**: from the roster, the conversations of the
  logged-in user and the fetched last messages, the page builds a map from the
  other participant's id to a preview and decorates every roster row with an
  empty thread and its preview (`ContactProjection`).
- **Thread reconciliation**: the loaded history is labelled "You" or with the
  contact's name, each live insert is appended to the thread, and the preview
  of the contact captured by the subscription is patched (`ThreadSync`).
- **The chat page's state** (current user, contact list, selected contact,
  loading flag) as a class whose methods are the page's handlers, and the send
  handler's guard and store writes (`MainPage.ChatSession`).
- **The contact card**: the name search that replaces the shown list, the
  sender label, the preview line and the row highlight (`ChatCard`).

Every store reply to a query or an insert is a parameter of type
`Result<T, StoreError>`, and a realtime insert event is a `Message` parameter of
`OnInsert`; what the model produces are the state updates and the writes the
client issues. Timestamps are opaque strings passed in.

Files: `wrappers.dfy` (Option, Result), `js_string.dfy` (string `<` and `trim`),
`rows.dfy` (row shapes), `conversation_pair.dfy`, `contact_projection.dfy`,
`thread_sync.dfy`, `main_page.dfy`, `chat_card.dfy`.

Behaviour of the client that the model follows as written:

- The send handler does not create a missing conversation; it only looks it up
  and stops on any lookup error (`HandleSendMessage`).
- The send handler does not append the sent message to the open thread; the
  thread and the sender's own preview change only when the live insert for it
  arrives (`OnInsert`).
- The live-insert callback does not check the message's conversation id; the
  scoping is the store-side filter of the subscription. `OnInsert` therefore
  applies any message it is given.
- The subscription's cleanup function is returned from the inner async
  function, not from the effect, so it never runs; the model has no
  "one live subscription" invariant and no unsubscribe.
- The name search resets to the `clients` list the card is given, which is the
  page's contact list: the last full projection with the preview patches of every
  live insert received since (src/app/components/Main_Page.tsx:340).

## Model

| member | source | states |
|---|---|---|
| JsString.LessIrreflexive | src/app/components/Main_Page.tsx:150-153 | `Less` (string `<`, lexicographic, a proper prefix being smaller): no id is smaller than itself under string `<` |
| JsString.LessTotal | src/app/components/Main_Page.tsx:150-153 | any two ids are equal or ordered one way or the other |
| JsString.LessAsymmetric | src/app/components/Main_Page.tsx:150-153 | no two ids are ordered both ways |
| JsString.LessTransitive | src/app/components/Main_Page.tsx:150-153 | string `<` is transitive |
| JsString.TrimStartDropsWhiteSpace | src/app/components/Main_Page.tsx:270 | `TrimStart` (drops leading white space): the leading trim keeps a suffix of the input that does not start with white space, and everything it drops is white space |
| JsString.TrimEndDropsWhiteSpace | src/app/components/Main_Page.tsx:270 | `TrimEnd` (drops trailing white space): the trailing trim keeps a prefix of the input that does not end with white space, and everything it drops is white space |
| JsString.TrimEmptyIff | src/app/components/Main_Page.tsx:270 | `Trim` (`trim()`, `TrimEnd` after `TrimStart`): `trim()` is empty exactly when every character is JavaScript white space or a line terminator |
| JsString.TrimIsInnerSlice | src/app/components/ChatCard.tsx:49 | `trim()` keeps a contiguous slice of the input with no white space at either end |
| ConversationPair.CanonicalPair | src/app/components/Main_Page.tsx:150-153 | the pair holds exactly the two ids and `user1_id` is not greater than `user2_id` |
| ConversationPair.CanonicalPairSymmetric | src/app/components/Main_Page.tsx:150-153 | swapping the two users gives the same pair |
| ConversationPair.CanonicalPairInjective | src/app/components/Main_Page.tsx:150-153 | two calls give the same pair exactly when they are about the same two users |
| ContactProjection.LastMessageIdsMembers | src/app/components/Main_Page.tsx:96-101 | `LastMessageIds` (the filter/map of `lastMessageIds`): an id is in the list exactly when some conversation has it as non-null `last_message_id`; never longer than the conversations |
| ContactProjection.LastMessageIdsConcat | src/app/components/Main_Page.tsx:96-101 | the filter keeps conversation order: the ids of a concatenation are the concatenation of the ids |
| ContactProjection.LastMessageIdsEmptyIff | src/app/components/Main_Page.tsx:96-104 | no last-message fetch happens exactly when no conversation has a last message |
| ContactProjection.FetchedPreviews | src/app/components/Main_Page.tsx:103-115 | `lastMessages` holds the store's reply exactly when there was an id to ask for and the fetch succeeded, else stays null |
| ContactProjection.FindPreviewFinds | src/app/components/Main_Page.tsx:120 | `FindPreview` (`find`; `PreviewFor` applies it when `lastMessages` is not null): `find` yields nothing exactly when no message has the conversation's `last_message_id` (always nothing for a null id), and otherwise the earliest message that has it |
| ContactProjection.OtherUserOfCanonicalRow | src/app/components/Main_Page.tsx:121-122 | `OtherUserId` (`user2_id` when `user1_id` is the logged-in id, else `user1_id`): for a row stored under the canonical pair of the logged-in user and X, the other user is X |
| ContactProjection.PreviewMapKeys | src/app/components/Main_Page.tsx:118-126 | `PreviewMap` (`convMap` after the `forEach`, keyed by `OtherUserId`, set from `PreviewFor`): a user has an entry exactly when some conversation with that other user has a found last message |
| ContactProjection.PreviewMapLatest | src/app/components/Main_Page.tsx:118-126 | a user's entry is the message of the last conversation that sets it: later conversations overwrite earlier ones |
| ContactProjection.PreviewMapWithoutMessages | src/app/components/Main_Page.tsx:118-126 | with `lastMessages` null the map stays empty |
| ContactProjection.BuildPreviewMap | src/app/components/Main_Page.tsx:118-126 | the `forEach` loop builds exactly the preview map of all conversations |
| ContactProjection.ProcessClients | src/app/components/Main_Page.tsx:129-133 | one contact per roster row, same order and columns, empty thread, and the map's preview for its id or none |
| ContactProjection.ProjectionPreview | src/app/components/Main_Page.tsx:96-133 | `Project` (`processedClients` from the three replies): a contact has a preview exactly when a conversation with it has a fetched last message, and it is that of the last such conversation |
| ContactProjection.NoPreviewsWithoutFetch | src/app/components/Main_Page.tsx:103-133 | with no ids or a failed fetch no contact gets a preview |
| ThreadSync.AnnotateHistoryLabels | src/app/components/Main_Page.tsx:203-207 | `AnnotateHistory` (the `senderName` map): same messages, same order; "You" when the sender is the current user, the contact's name otherwise |
| ThreadSync.AnnotateHistoryConcat | src/app/components/Main_Page.tsx:203-207 | annotating a concatenation annotates each part |
| ThreadSync.WithHistory | src/app/components/Main_Page.tsx:199-210 | a selected contact keeps every other field and gets the annotated history under its own name; no selection stays none |
| ThreadSync.WithLiveMessage | src/app/components/Main_Page.tsx:224-240 | the thread grows by one annotated message at the end, earlier messages and other fields unchanged; no selection stays none |
| ThreadSync.LiveMessagesAppend | src/app/components/Main_Page.tsx:222-240 | `WithLiveMessages` (the callback's thread update applied to each insert in turn): a run of live inserts keeps the earlier thread as a prefix and appends the annotated messages in arrival order |
| ThreadSync.HistoryThenLive | src/app/components/Main_Page.tsx:199-240 | history then live inserts shows the same thread as loading history and inserts together |
| ThreadSync.PatchPreview | src/app/components/Main_Page.tsx:242-256 | same length and ids in order; only contacts with the captured id change, and only their preview, which takes the message's id, context, sender and timestamp |
| ThreadSync.PatchPreviewIdempotent | src/app/components/Main_Page.tsx:242-256 | delivering the same message twice patches the list once |
| ThreadSync.PatchPreviewCommutes | src/app/components/Main_Page.tsx:242-256 | patches for two different contacts do not interfere |
| ThreadSync.PatchAllKeepsLast | src/app/components/Main_Page.tsx:242-256 | `PatchAll` (the callback's list update applied to each insert in turn): after a run of patches a contact shows the last message patched for it |
| MainPage.ResolveConversation | src/app/components/Main_Page.tsx:150-186 | looks up the canonical pair; inserts that pair exactly on a "PGRST116" lookup error; yields the found or created row, else aborts |
| MainPage.ResolveSymmetric | src/app/components/Main_Page.tsx:150-186 | both users issue the same lookup and insert and get the same outcome |
| MainPage.SendTarget | src/app/components/Main_Page.tsx:270-275 | no key exactly when no contact is selected, no user is loaded or the trimmed text is empty; else the canonical pair |
| MainPage.SendHitsOpenedConversation | src/app/components/Main_Page.tsx:272-275 | the send path looks up the key either user uses when opening the conversation |
| MainPage.ApplyUpdate | src/app/components/Main_Page.tsx:305-311 | rows with the conversation's id get the new `last_message_id` and `updated_at`; other rows unchanged |
| MainPage.UpdatedMessageIsFetched | src/app/components/Main_Page.tsx:305-311 | after the update the next load asks for the new message |
| MainPage.ChatSession.constructor | src/app/components/Main_Page.tsx:49-52 | no user, empty list, no selection, loading |
| MainPage.ChatSession.FetchData | src/app/components/Main_Page.tsx:55-141 | a failed user fetch changes nothing; failed roster or conversation fetches keep the loaded user only; otherwise the list is the projection and its first contact is selected when non-empty; loading ends false |
| MainPage.ChatSession.OpenConversation | src/app/components/Main_Page.tsx:146-210 | no-op without selection or user; on resolution and history success the selected contact gets the annotated history and a subscription captures the conversation, user and contact ids; any failure leaves the state |
| MainPage.ChatSession.OnInsert | src/app/components/Main_Page.tsx:222-256 | the selected thread grows by the message and the captured contact's preview is patched |
| MainPage.ChatSession.SelectClient | src/app/components/ChatCard.tsx:122 | the clicked contact becomes the selection; nothing else changes |
| MainPage.ChatSession.HandleSendMessage | src/app/components/Main_Page.tsx:269-311 | no store call under the guard; lookup under the canonical pair; insert of the untrimmed text by the current user; after a successful insert the update makes it the conversation's last message |
| ChatCard.Enrich | src/app/components/ChatCard.tsx:65-69 | each result keeps its columns and store order, with no thread and no preview |
| ChatCard.FetchMatchingClients | src/app/components/ChatCard.tsx:46-72 | no logged-in id: list unchanged; blank term: list is `clients`, no query; else query `%term%` untrimmed excluding the user, and on error the list is unchanged, else the enriched results |
| ChatCard.PreviewLinePlaceholderIff | src/app/components/ChatCard.tsx:127-129 | `PreviewLine` (label, ": " and the text with a preview, else "No messages yet."): "No messages yet." is shown exactly for a contact without a preview |
| ChatCard.SenderLabelMeansOwnMessage | src/app/components/ChatCard.tsx:109-114 | `SenderLabel` (the label before a preview: "" without preview, "You" for one's own message, else the contact's name): for a contact not named "You", the label is "You" exactly when the preview's sender is the logged-in user |
| ChatCard.ContactNamedYouReadsAsOwn | src/app/components/ChatCard.tsx:110-128 | a contact named "You" shows "You: " and the text for a message the contact sent, indistinguishable from one's own |
| ChatCard.SearchResultsShowPlaceholder | src/app/components/ChatCard.tsx:65-71 | every search result shows "No messages yet." |
| ChatCard.AtMostOneSelected | src/app/components/ChatCard.tsx:120 | `IsSelected` (a selection exists and its id is the row's id): with distinct ids at most one row is highlighted |
| ChatCard.LoadedSelectionHighlightsFirst | src/app/components/ChatCard.tsx:120 | with the first contact selected and distinct ids, exactly the first row is highlighted |
| ChatCard.OwnMessageShowsAsYou | src/app/components/ChatCard.tsx:109-129 | after the live insert of one's own message, that contact's row reads "You: " and the text |

## Left out

- All store calls (select, insert, update, the `.or`, `.in`, `.ilike` and `.neq` filters, the realtime channel): their replies are parameters. That the roster and search results exclude the logged-in user, and that name search is case-insensitive, happens in the store and is not modelled.
- JsString.Less: compares characters by code point, while JavaScript compares UTF-16 code units; the two orders differ only between characters above U+FFFF and characters in U+E000 to U+FFFF.
- Store replies are data or an error, never both absent; so the null-data checks (`!userData`, `!allClients`, `!conversations`, `!conversation` after fetch or create, and `!conv` in the send path) have no separate branch in the model.
- The order of asynchronous steps: each handler runs to completion, so the race between the history load and a live insert, and a selection change while a load is in flight, are not modelled.
- React effects, their dependencies and re-runs, and the JSX: the handlers are methods called explicitly; when the search effect runs is not modelled.
- `new Date().toISOString()` and `toLocaleTimeString`: timestamps are opaque strings given as parameters, and the time shown on a row is not modelled.
- The reply of the send path's conversation update is ignored by the client and is not modelled; `HandleSendMessage` reports the update it issues.
- The password column of `clients` rows, which the client spreads into its contacts unused.
- src/app/login/page.tsx, src/app/signup/page.tsx, src/app/page.tsx and src/app/logout/page.tsx: form submission, credential lookup, session storage and routing, all store or browser I/O.
