# Realtor-bot widgets: a verified Dafny model

This project models the two pieces of logic under the DOM code of the Realtor-bot front end.

- **The chat widget** (`RealEstateChat`, chat-widget.js) keeps one WebSocket connection to a messaging gateway. The model covers its connection state machine: the fields `ws`, `isConnecting` and `isWaitingForInput`; the transcript that `addMessage` appends to; and the outbound `chat.send` envelopes that `ws.send` emits. These change in response to `connect()`, the transport's open, message, error and close signals, and `sendMessage()`.
- **The lead dashboard** (`LeadTracker`, dashboard-script.js) loads contacts from the CRM. It normalises them into leads, counts them per status, filters them, and labels each card with a status symbol and an age.

Modules:

- `Wrappers`: `Option` and `Result`.
- `JsText`: JavaScript's `String.prototype.trim`, and the decimal text of an integer, with its inverse.
- `ChatModel`: the chat widget's fields as a value (`ChatState`). It has one step function per handler (`ConnectStep`, `OpenStep`, `MessageStep`, `ErrorStep`, `CloseStep`, `SendStep`), one for the browser's move to CLOSING (`ClosingStep`), an `Event` type with `Step`/`Run`, the invariant `Inv`, and the lemmas about all of these.
- `Chat`: the class `RealEstateChat`. Each handler is a method proved to reach the state the matching step function gives (`ensures State() == ConnectStep(old(State()), ...)`). Each method also keeps `Valid()`, which is `Inv` of the current fields.
- `Leads`: the dashboard's expression-level logic, as pure functions and lemmas.
- `Dashboard`: the class `LeadTracker`, with its load, filter and key-entry handlers.

The counters `created` and `closed` in the chat model are instrumentation, not fields of the source. They count the transports constructed and the close signals that released a held handle, so that "never more than one live transport" can be stated (`Live(s) <= 1`).

Environment inputs are parameters:

- whether `new WebSocket(...)` throws (`constructorThrows`);
- the stored session key and the clock reading used to make a fresh one;
- the page's query parameters;
- the outcome of each `fetch`;
- `Date.now()` when cards are drawn.

The model follows the code in three places worth noting:

- After a transport error the handle is **not** released (chat-widget.js:78-81). Only the close signal clears `ws`, so until then `connect()` stays a no-op.
- The hide action (`closeChat`) leaves the connection open.
- The error prefix that an inbound `error` payload gets is exactly `"Error: "`.

## Model

| member | source | states |
|---|---|---|
| JsText.Trim | chat-widget.js:94 | `trim()` returns a slice of its input. Everything removed at either end is ECMAScript whitespace or a line terminator. The result neither starts nor ends with whitespace. |
| JsText.TrimEmptyIffAllWhitespace | chat-widget.js:95 | The trimmed text is empty exactly when the input is empty or whitespace only. |
| JsText.NatToString | dashboard-script.js:96 | A count is written as one or more decimal digits with no leading zero. |
| JsText.DigitsValueOfNatToString | dashboard-script.js:96 | Reading the digits of a written count gives the count back. |
| JsText.IntToString | dashboard-script.js:144 | An integer's text starts with '-' exactly when the integer is negative; otherwise it is the number's digits. |
| JsText.IntToStringRoundTrip | dashboard-script.js:75 | Parsing an integer's text gives the integer back. |
| JsText.IntToStringInjective | dashboard-script.js:75 | Different integers have different texts. |
| ChatModel.GatewayUrl | chat-widget.js:16-24 | A `gateway` query parameter, even an empty one, is the gateway address. Without one, the address is `ws://localhost:18789`. |
| ChatModel.SessionKey | chat-widget.js:6 | A stored key is used unless it is missing or empty. Otherwise the key is `realtor-demo-` followed by the clock reading. The key is never empty. |
| ChatModel.Inv | chat-widget.js:60-111 | The invariant of every reachable state. It implies that at most one transport is live, and that one is live exactly when a handle is held. |
| ChatModel.ConnectStep | chat-widget.js:60-91 | `connect()` never touches the outbox, the waiting flag, the key or the gateway. A handle exists afterwards only if one existed before or exactly one transport was constructed. The transcript is unchanged or gains only the "Failed to connect" entry. |
| ChatModel.OpenStep | chat-widget.js:67-71 | The open signal makes a held handle OPEN on the same address and never creates one. It clears the flag, sets waiting-for-input, and leaves the outbox and the transport counters alone. |
| ChatModel.MessageStep | chat-widget.js:113-120 | An inbound payload leaves the connection, the flag, the outbox and the counters alone. It adds at most one transcript entry. Waiting-for-input ends up set exactly when it was set before or the payload is a `chat`. |
| ChatModel.ErrorStep | chat-widget.js:78-81 | The error signal keeps a held handle on the same address, now CLOSED. Afterwards nothing is OPEN or connecting, and the outbox and counters are unchanged. |
| ChatModel.CloseStep | chat-widget.js:83-86 | The close signal leaves no handle and no connection in progress. From a state satisfying the invariant it reaches one that satisfies it with no live transport. The transcript and outbox are unchanged. |
| ChatModel.ClosingStep | chat-widget.js:101 | When the server starts the closing handshake, an OPEN handle becomes CLOSING on the same address; nothing else changes. Afterwards the handle is not OPEN, which is what the send check at this line sees. |
| ChatModel.SendStep | chat-widget.js:93-111 | Blank input changes nothing. Otherwise the first new transcript entry is the trimmed text from the user. The outbox is unchanged unless the handle was OPEN, and then it gains exactly the one `chat.send` envelope with the key and the trimmed text. |
| ChatModel.ConnectIsNoOpWhenBusy | chat-widget.js:61 | `connect()` while connecting, or while any handle is held, leaves every field unchanged. |
| ChatModel.ConnectCreatesOneTransportFromNull | chat-widget.js:60-65 | `connect()` constructs at most one transport, and does so exactly when not connecting, no handle is held and construction succeeds. The new handle is CONNECTING on `<gateway>/ws`, the flag is set, and the transcript and outbox are unchanged. |
| ChatModel.ConnectFailureReported | chat-widget.js:87-90 | When construction throws: no handle is held, the flag is clear, exactly one "Failed to connect" bot entry is added, and nothing else changes. |
| ChatModel.ConnectIdempotent | chat-widget.js:61-65 | After a `connect()` that produced a handle, any further `connect()` has no effect. |
| ChatModel.OpenGreetsOnce | chat-widget.js:67-71 | The open signal clears the flag, leaves the handle OPEN, appends exactly one greeting, and sets waiting-for-input. |
| ChatModel.ErrorKeepsHandleUntilClose | chat-widget.js:78-81 | The error signal clears the flag and appends one "Connection error" entry. It keeps the handle, which is not OPEN. So the next `connect()` is a no-op, and the next send emits no envelope and constructs no transport. |
| ChatModel.HandleHeldUntilClose | chat-widget.js:61 | Along any sequence of events without a close signal, a held handle stays held and no transport is constructed. So `connect()` stays a no-op until `onclose` runs, for example after an error. |
| ChatModel.ClosingHandshakeBlocksSend | chat-widget.js:101-110 | A send between the server starting the closing handshake and `onclose` emits no envelope. It appends the user entry and "Connection lost", and constructs no transport because the handle is still held. |
| ChatModel.CloseReenablesConnect | chat-widget.js:83-86 | The close signal, from any state, clears the flag and the handle and leaves the transcript and outbox alone. A following `connect()` constructs a new transport. |
| ChatModel.MessageHandling | chat-widget.js:113-120 | An inbound `chat` payload appends its text as a bot entry and sets waiting-for-input. An `error` payload appends "Error: " + its message. Any other type changes nothing. No payload touches the connection or the outbox. |
| ChatModel.SendBlankIsIgnored | chat-widget.js:94-95 | A send of empty or whitespace-only input changes nothing. |
| ChatModel.SendWhileOpen | chat-widget.js:97-106 | A send while OPEN first appends the trimmed text as a user entry. It then emits exactly one `chat.send` envelope with the session key and that text, and adds no bot entry. |
| ChatModel.SendWhileNotOpen | chat-widget.js:107-110 | A send while not OPEN emits no envelope. It appends the user entry and then "Connection lost", and then runs `connect()`, which changes nothing more if a handle exists or a connection is in progress. |
| ChatModel.StepPreservesInv | chat-widget.js:60-120 | Every event keeps the invariant. A held handle is the only live transport. `isConnecting` holds exactly when that handle is CONNECTING. The handle points at `<gateway>/ws`. Every envelope is a `chat.send` with the widget's session key. |
| ChatModel.RunPreservesInv | chat-widget.js:60-91 | Along any sequence of events the invariant holds, so there are never two live transports. |
| ChatModel.StepAppendOnly | chat-widget.js:122-135 | No event rewrites the transcript or the outbox; each event only appends to them. The session key and the gateway never change. Once waiting-for-input is set, it stays set. |
| ChatModel.RunAppendOnly | chat-widget.js:122-135 | The same holds along any sequence of events. |
| ChatModel.EnvelopeOnlyFromOpenSend | chat-widget.js:101-106 | An envelope is emitted only by a send while OPEN, and it carries the trimmed text. |
| Chat.RealEstateChat.constructor | chat-widget.js:4-14 | The widget starts with its session key and gateway, no handle, both flags clear, and an empty transcript and outbox. |
| Chat.RealEstateChat.OpenChat | chat-widget.js:48-53 | Opening the widget is a `connect()`. |
| Chat.RealEstateChat.CloseChat | chat-widget.js:55-58 | Hiding the widget leaves the connection and every field unchanged. |
| Chat.RealEstateChat.AddMessage | chat-widget.js:122-135 | Appends exactly one entry with the given role and text, and changes no other field. |
| Chat.RealEstateChat.Connect | chat-widget.js:60-91 | Reaches `ConnectStep` of the previous state and keeps the invariant. |
| Chat.RealEstateChat.OnOpen | chat-widget.js:67-71 | Reaches `OpenStep` of the previous state and keeps the invariant. |
| Chat.RealEstateChat.OnMessage | chat-widget.js:73-76 | Reaches `MessageStep` on the decoded payload and keeps the invariant. |
| Chat.RealEstateChat.OnError | chat-widget.js:78-81 | Reaches `ErrorStep` of the previous state and keeps the invariant. |
| Chat.RealEstateChat.OnClosingHandshake | chat-widget.js:101 | Changes only the handle's `readyState`, reaching `ClosingStep` of the previous state, and keeps the invariant. |
| Chat.RealEstateChat.OnClose | chat-widget.js:83-86 | Reaches `CloseStep` of the previous state and keeps the invariant. |
| Chat.RealEstateChat.SendMessage | chat-widget.js:93-111 | Reaches `SendStep` of the previous state and keeps the invariant. |
| Chat.RealEstateChat.HandleMessage | chat-widget.js:113-120 | Reaches `MessageStep` of the previous state and keeps the invariant. |
| Leads.PropertyOr | dashboard-script.js:85 | A property's value is used unless it is missing or empty, as JavaScript's `or` treats "" as false. The result is the default exactly when the value is missing, empty, or equal to the default. |
| Leads.ToLead | dashboard-script.js:80-91 | Gives the field-by-field defaults. The name is first + " " + last, each defaulting to "". The status defaults to "unknown". Email, phone, budget, timeline and needs default to "N/A". The id and creation time are copied. |
| Leads.ToLeadNeverEmpty | dashboard-script.js:81-90 | No normalised field except the name's halves is ever empty. The status is "unknown" exactly when the property is missing, empty or literally "unknown". |
| Leads.ToLeads | dashboard-script.js:79-92 | If every contact has a `properties` object, gives one lead per contact with the same length and order. Otherwise the mapping fails. |
| Leads.LoadErrorMessage | dashboard-script.js:71-76 | Gives the invalid-API-key message exactly for status 401, and "API error: " + status for any other status. |
| Leads.LoadErrorMessageInjective | dashboard-script.js:75 | Different statuses give different error messages. |
| Leads.LoadResult | dashboard-script.js:61-99 | A rejected fetch reports its error. A response that is not ok reports `Error: ` + the status message, with 401 giving the invalid-key text. An ok response with a body that is not JSON reports the parse error. An ok JSON response yields exactly `ToLeads` of its `results`, or of no contacts when `results` is missing. When some contact has no `properties`, it reports the TypeError text instead. |
| Leads.WithStatus | dashboard-script.js:108-110 | The filtered leads are exactly those with that status: every one has it, every lead with it is kept, and there are never more than the leads. |
| Leads.WithStatusConcat | dashboard-script.js:122 | Filtering distributes over concatenation, so it keeps the original order. |
| Leads.StatsOf | dashboard-script.js:106-111 | The total is the lead count. Hot, warm and cold are the sizes of those status filters. |
| Leads.StatsPartition | dashboard-script.js:106-111 | total = hot + warm + cold + the number of leads with any other status, "unknown" included. So hot + warm + cold ≤ total. |
| Leads.Visible | dashboard-script.js:118-123 | Filter "all" shows every lead. Any other filter shows exactly the leads with that status. A lead is shown exactly when it is a lead and matches. |
| Leads.StatusEmoji | dashboard-script.js:137-141 | hot, warm and cold get their own symbols. The white circle is given exactly to every other status. |
| Leads.StatusEmojiAsWritten | dashboard-script.js:137-141 | As written, a status that names an `Object.prototype` member yields that inherited member. Every other status gets the corrected symbol. |
| Leads.PrototypeStatusMissesDefault | dashboard-script.js:137-141 | As written, the status "toString" gets no white circle; the corrected lookup gives it one. |
| Leads.DaysAgo | dashboard-script.js:143 | Whole days elapsed, rounded down: d·86400000 ≤ now − createdAt < (d+1)·86400000. |
| Leads.DateLabel | dashboard-script.js:144 | The label is "Today" exactly when no whole day has elapsed. Otherwise it is the day count followed by "d ago". |
| Leads.SameDayIsToday | dashboard-script.js:143-144 | A lead created less than a day before now is labelled "Today". |
| Leads.CardOf | dashboard-script.js:136-144 | A card shows its lead. It shows the white circle exactly when the status is not hot, warm or cold, and "Today" exactly when the lead was created less than a day before now. |
| Leads.Render | dashboard-script.js:118-134 | The list shows the empty state exactly when no lead passes the filter. Otherwise it shows one card per visible lead, in order, each with its status symbol and age label. |
| Dashboard.LoadedMessage | dashboard-script.js:96 | The success banner is "Loaded ", then the count's digits, then " leads". Reading those digits gives the count back. |
| Dashboard.LeadTracker.constructor | dashboard-script.js:3-17 | The key is the stored key, or "" if none. The filter is "all" and there are no leads. A non-empty key issues exactly one contacts request with that bearer key. |
| Dashboard.LeadTracker.LoadLeads | dashboard-script.js:56-69 | Issues exactly one request to the contacts URL, authorised with `Bearer <key>`. |
| Dashboard.LeadTracker.CompleteLoad | dashboard-script.js:71-99 | On success: the leads are replaced, the list and counters are redrawn, and "Loaded N leads" is shown. On failure: only the error banner is added. Key, filter, storage and requests are unchanged either way. |
| Dashboard.LeadTracker.ShowLoaded | dashboard-script.js:94-96 | The loaded leads become the leads, the list and counters are drawn from them, and exactly one "Loaded N leads" banner is added. |
| Dashboard.LeadTracker.UpdateStats | dashboard-script.js:106-116 | The counters show `StatsOf` of the leads. |
| Dashboard.LeadTracker.RenderLeads | dashboard-script.js:118-134 | The list shows `Render` of the leads under the current filter. |
| Dashboard.LeadTracker.HandleLoadClick | dashboard-script.js:37-46 | A blank trimmed key only adds the "Please enter your HubSpot API key" error: the key, storage and requests are unchanged and no load starts. Otherwise the trimmed key becomes the key, is stored, and exactly one request with it is issued. |
| Dashboard.LeadTracker.HandleFilterClick | dashboard-script.js:48-54 | The filter becomes the button's filter and the list is redrawn under it. |

## Findings

| source | as written | input that shows it | evidently intended | confidence | as-written member | corrected member |
|---|---|---|---|---|---|---|
| dashboard-script.js:137-141 | The status symbol is the object literal `{hot, warm, cold}` indexed by `lead.status`, or ⚪ when that is falsy. Indexing a plain object literal also finds the members it inherits from `Object.prototype`. Those are truthy, so the fallback never happens for them. | A lead whose status is "toString", "constructor", "valueOf" or "__proto__". The card shows the inherited function or object as text instead of ⚪. | Every status other than hot, warm and cold shows ⚪. | not executed; follows from JavaScript property lookup | Leads.StatusEmojiAsWritten (exhibited by Leads.PrototypeStatusMissesDefault) | Leads.StatusEmoji |

The rest of the model uses the corrected `StatusEmoji`.

## Left out

- The DOM is not modelled: element lookup, class toggling, focus, scrolling, clearing the input field, HTML templates, `toUpperCase` of the status on a card, and banner insertion with its `setTimeout` removal. Banners are kept as a log of the texts passed to `showError`/`showSuccess`, without the "❌ "/"✅ " prefix.
- The WebSocket object itself is not modelled. It is a handle holding its URL and `readyState`. The browser's own `readyState` changes are folded into the signal that announces them: OPEN before `onopen`, CLOSED before `onerror`. The move to CLOSING when the server starts the closing handshake is its own event (`ClosingStep`), because no handler announces it. The widget never calls `close()` itself, so it never starts a closing handshake. The handlers accept their signals in any order; the browser's guarantees about that order are not assumed.
- Chat.RealEstateChat.OnMessage: `JSON.parse` is not modelled. The payload arrives already decoded with string `type`, `text` and `message`. What the source does with an unparsable payload is an uncaught exception, and it is not specified. Missing or non-string members are not modelled either.
- ChatModel.GatewayUrl: the query string is a map, so it does not capture `URLSearchParams.get` returning the first of several repeated `gateway` parameters.
- ChatModel.SessionKey: `localStorage` and `Date.now()` are parameters. The key is never written back to storage (neither does the source).
- `fetch`, `await` and `response.json()` are not modelled; each request's outcome is an input to `CompleteLoad`. The `finally` block that resets the button's loading state is not modelled.
- Leads.ToLeads: property values are strings, and a missing `value` counts as a missing property. Non-string values such as numbers, and `null`, are not modelled. A contact without `properties` makes the load fail with V8's TypeError text. Other engines word that message differently.
- Leads.DaysAgo: the creation time is an integer millisecond count. Invalid dates, which JavaScript turns into NaN and the label "NaNd ago", are not modelled.
- The session key, gateway URL and API key are opaque strings; their formats are not checked.
- The event-listener wiring (`setupEventListeners`, the Enter-key filter and `DOMContentLoaded`) is not modelled. Each handler is a separately callable method.
