# ytchatinteraction browser clients, modelled in Dafny

The repository's browser scripts keep pages in step with a server over a
WebSocket. Four of them hold the stateful logic modelled here:

- **userEventsInterface.js**: the voting page controller. It gates the vote
  form, clamps confidence sliders when a channel's balance changes, routes
  server messages by `type`, and shows one live-connection indicator.
- **events_updates.js**: the events page notifier. Every server frame shows
  one flash message and schedules a fade and a page reload. A closed
  connection schedules a reload too.
- **live_parse_messages.js**: the vote-detection feed. It puts a four-cell
  row at the top of the event's results table.
- **app.js**: the chat client. It has a message list, a text input and a
  send button that stays disabled until the connection opens.

Each page's DOM is an abstract record held in the fields of one class. The
record holds sequences of sliders and balance labels, maps from poll id to
display text and button, an optional status indicator, the flash
container's children, the table bodies keyed by element id, and the chat
message list. Each event handler is a method on that class. An element
that `getElementById` or `querySelector` would not find is a missing map
key or a `None`. Loops in the scripts are `while` loops here. Each loop is
proved against a recursive specification function, and the lemmas about
those functions state what the scripts promise.

Files (one module each): `base.dfy` (`Base`: optional values and the
decimal rendering of numbers), `user_events.dfy` (`UserEvents`),
`events_updates.dfy` (`EventUpdates`), `live_parse_messages.dfy`
(`LiveVotes`), `chat_app.dfy` (`ChatApp`).

Behaviour the scripts do not have:

- A frame that is not JSON is not shown as plain text. `JSON.parse` is
  unguarded, so the handler throws before changing anything. Such a frame
  is a `NotJson`/`FeedNotJson` frame that leaves the state unchanged.
- The vote table has no 10-row cap. Line 49 of live_parse_messages.js is
  only a comment.
- Vote validation has no balance-ceiling check.
- There is no "connecting" indicator. userEventsInterface.js never
  reconnects. events_updates.js reloads the page once, 5 s after a close.
- `updatePollDisplay` does nothing, so a poll update changes no state.

## Model

| member | source | states |
|---|---|---|
| `Base.IntToString` | server/public/javascripts/userEventsInterface.js:166 | the text of a number is non-empty and starts with '-' exactly when the number is negative |
| `Base.IntToStringRoundTrip` | server/public/javascripts/userEventsInterface.js:173 | reading a rendered integer back as `parseInt` does gives that integer, so a shown value determines the number |
| `Base.IntToStringInjective` | server/public/javascripts/userEventsInterface.js:50 | two different numbers never render to the same display text |
| `UserEvents.BalanceTextShowsBalance` | server/public/javascripts/userEventsInterface.js:166 | a balance label reads "Balance: ", then the balance, then " points", and the middle part parses back to the balance |
| `UserEvents.RelabelAt` | server/public/javascripts/userEventsInterface.js:164-167 | relabelling keeps the label count, and each label is rewritten alone, in place |
| `UserEvents.RelabelSpec` | server/public/javascripts/userEventsInterface.js:164-167 | every label of channel c reads exactly the balance text for b; labels of other channels are untouched |
| `UserEvents.RelabelIdempotent` | server/public/javascripts/userEventsInterface.js:164-167 | relabelling twice for the same balance equals relabelling once |
| `UserEvents.ClampSlidersAt` | server/public/javascripts/userEventsInterface.js:170-177 | clamping keeps the slider count and treats each slider alone, in place |
| `UserEvents.ClampSlidersSpec` | server/public/javascripts/userEventsInterface.js:171-177 | each slider of channel c gets max = b and value = min(old value, b), keeping its poll and channel; sliders of other channels are unchanged; no slider of c is left above b |
| `UserEvents.ClampKeepsWithinMax` | server/public/javascripts/userEventsInterface.js:172-175 | if every slider's value was within its max, it still is after clamping |
| `UserEvents.ClampDisplaysKeys` | server/public/javascripts/userEventsInterface.js:47-52 | announcing clamped values neither creates nor removes a confidence display |
| `UserEvents.ClampDisplaysAt` | server/public/javascripts/userEventsInterface.js:173-176 | an existing display shows b exactly when some slider of its poll on channel c was above b; otherwise it keeps its text |
| `UserEvents.ClampDisplaysSpec` | server/public/javascripts/userEventsInterface.js:173-176 | a poll whose slider was clamped shows b; every other display keeps its text; the set of displays is unchanged |
| `UserEvents.ClampSlidersIdempotent` | server/public/javascripts/userEventsInterface.js:170-177 | applying the same balance update to the sliders twice equals applying it once |
| `UserEvents.ClampedDisplayMatchesSlider` | server/public/javascripts/userEventsInterface.js:172-176 | after a balance update, the display of a clamped slider shows the slider's new value |
| `UserEvents.SanitisedDisplaysStale` | server/public/javascripts/userEventsInterface.js:172-176 | when assigning `max` already lowers the value, as browsers do, the value test never succeeds and no display changes |
| `UserEvents.StaleDisplayExample` | server/public/javascripts/userEventsInterface.js:172-176 | a slider at 60 and a balance of 40: the slider reads 40 while the browser pass leaves its display at "60"; the intended pass shows "40" |
| `UserEvents.ClampDisplaysIdempotent` | server/public/javascripts/userEventsInterface.js:173-176 | a second identical balance update changes no confidence display |
| `UserEvents.FindSlider` | server/public/javascripts/userEventsInterface.js:56 | the slider found for a poll id is the first one in document order with that id; none is found exactly when no slider has it |
| `UserEvents.InitialDisplaysKeys` | server/public/javascripts/userEventsInterface.js:40 | the initial display pass neither creates nor removes displays |
| `UserEvents.InitialDisplaysUntouched` | server/public/javascripts/userEventsInterface.js:21-25 | a poll with no vote form, or with no slider, keeps its display text |
| `UserEvents.InitialDisplaysLast` | server/public/javascripts/userEventsInterface.js:21-40 | a poll with a vote form shows the value of its last slider in document order |
| `UserEvents.InitialDisplaysAt` | server/public/javascripts/userEventsInterface.js:21-40 | a poll with no form or no slider keeps its display text; otherwise its display shows the value of its last slider in document order |
| `UserEvents.InitialDisplaysSpec` | server/public/javascripts/userEventsInterface.js:21-40 | the same, for every display at once |
| `UserEvents.SubmitButtonFor` | server/public/javascripts/userEventsInterface.js:59-67 | the button is enabled exactly when an option is selected and the slider exists; it then reads "<value> points for <option>"; otherwise it reads "Submit Vote" and is disabled |
| `UserEvents.VoteError` | server/public/javascripts/userEventsInterface.js:74-84 | a form is accepted exactly when an option is selected and the slider exists with value at least 1; no selection gives "Please select an option" whatever the slider; a missing or low slider gives "Please set a valid confidence level" |
| `UserEvents.GateAgreesWithValidation` | server/public/javascripts/userEventsInterface.js:54-94 | validation accepts exactly when the submit button would be enabled and the slider is at least 1; an enabled button never meets the "select an option" error |
| `UserEvents.StatusReflectsLatest` | server/public/javascripts/userEventsInterface.js:180-213 | after any non-empty run of open/close/error signals, the single indicator shows the latest one; with neither an indicator nor an anchor, none is ever created |
| `UserEvents.UserEventsInterface.SliderById` | server/public/javascripts/userEventsInterface.js:56 | none is found exactly when no slider carries the poll id; otherwise the found slider is the first one in document order carrying it |
| `UserEvents.UserEventsInterface.constructor` | server/public/javascripts/userEventsInterface.js:6-16 | the page as loaded: no indicator, no error element, no socket, no reload |
| `UserEvents.UserEventsInterface.InitializeVotingInterface` | server/public/javascripts/userEventsInterface.js:18-45 | each slider inside a vote form shows its value in its poll's display |
| `UserEvents.UserEventsInterface.UpdateConfidenceDisplay` | server/public/javascripts/userEventsInterface.js:47-52 | an existing display gets the text; a missing one is not created |
| `UserEvents.UserEventsInterface.UpdateSubmitButton` | server/public/javascripts/userEventsInterface.js:54-68 | an existing button takes the state given by SubmitButtonFor; a missing button stays missing; nothing else changes |
| `UserEvents.UserEventsInterface.OnSliderInput` | server/public/javascripts/userEventsInterface.js:28-31 | the slider takes the new value, the display shows it, and the button is re-gated; value within max is kept |
| `UserEvents.UserEventsInterface.OnOptionChange` | server/public/javascripts/userEventsInterface.js:19-37 | the listener exists only for a poll with a vote form and a slider; the checked option is recorded and the button is re-gated |
| `UserEvents.UserEventsInterface.ValidateVoteForm` | server/public/javascripts/userEventsInterface.js:70-94 | the listener, installed at line 43 inside the pass over sliders, exists only for a poll with a vote form and a slider; submission goes ahead exactly when VoteError finds nothing; a refusal shows its reason in the one error element and leaves the buttons alone; acceptance makes an existing button "Submitting..." and disabled |
| `UserEvents.UserEventsInterface.ShowError` | server/public/javascripts/userEventsInterface.js:215-237 | the one error element exists and holds the message |
| `UserEvents.UserEventsInterface.InitializeEventUpdates` | server/public/javascripts/userEventsInterface.js:96-101 | a socket is opened only for a present, non-empty URL whose construction does not throw |
| `UserEvents.UserEventsInterface.ConnectWebSocket` | server/public/javascripts/userEventsInterface.js:103-128 | a constructed socket is stored in the Connecting state; a throwing constructor leaves the field as it was |
| `UserEvents.UserEventsInterface.OnOpen` | server/public/javascripts/userEventsInterface.js:107-110 | the socket is open; the indicator shows "connected" when an indicator or the anchor exists, and otherwise none is created |
| `UserEvents.UserEventsInterface.OnClose` | server/public/javascripts/userEventsInterface.js:116-119 | the socket is closed; the indicator shows "disconnected" when an indicator or the anchor exists, and otherwise none is created |
| `UserEvents.UserEventsInterface.OnError` | server/public/javascripts/userEventsInterface.js:121-124 | the socket is closed; the indicator shows "disconnected" when an indicator or the anchor exists, and otherwise none is created |
| `UserEvents.UserEventsInterface.OnMessage` | server/public/javascripts/userEventsInterface.js:112-114 | a JSON frame is dispatched; a frame that is not JSON changes nothing |
| `UserEvents.UserEventsInterface.HandleWebSocketMessage` | server/public/javascripts/userEventsInterface.js:130-160 | exactly the handler for the message's type runs: a balance update relabels, clamps and re-displays; an event update may only request a reload; a poll update or unknown type changes nothing |
| `UserEvents.UserEventsInterface.UpdateEventDisplay` | server/public/javascripts/userEventsInterface.js:146-152 | a reload is requested exactly when `current-<eventId>` exists |
| `UserEvents.UserEventsInterface.UpdateBalanceDisplay` | server/public/javascripts/userEventsInterface.js:162-178 | labels, sliders and displays become Relabel, ClampSliders and ClampDisplays of their old values; every slider stays within its max |
| `UserEvents.UserEventsInterface.RelabelChannel` | server/public/javascripts/userEventsInterface.js:164-167 | the labels become Relabel of the old labels; nothing else changes |
| `UserEvents.UserEventsInterface.ClampChannelSliders` | server/public/javascripts/userEventsInterface.js:170-177 | sliders and displays become ClampSliders and ClampDisplays of their old values; every slider stays within its max |
| `UserEvents.UserEventsInterface.ShowConnectionStatus` | server/public/javascripts/userEventsInterface.js:180-213 | the single indicator is created in the anchor on first use and then overwritten with the latest status; with no anchor and no indicator nothing is created |
| `UserEvents.UserEventsInterface.RefreshEvents` | server/public/javascripts/userEventsInterface.js:246-252 | an open socket is sent one refresh request; otherwise a reload is requested and nothing is sent |
| `EventUpdates.ClassFor` | public/javascripts/events_updates.js:6 | the flash class is `success-message` exactly when the type is "success", else `error-message` |
| `EventUpdates.FlashTimers` | public/javascripts/events_updates.js:19-27 | a fade then a reload are scheduled; the reload at the given delay, the fade 1000 ms earlier |
| `EventUpdates.WithoutFlashesSpec` | public/javascripts/events_updates.js:12-13 | removing flashes leaves no flash and only other children, in order; it is idempotent and does nothing without flashes |
| `EventUpdates.FlashedExactlyOne` | public/javascripts/events_updates.js:10-16 | after a flash the container holds exactly one flash, as first child, and the same other children |
| `EventUpdates.FlashedLatestWins` | public/javascripts/events_updates.js:12-16 | a second flash replaces the first: the result equals flashing only the second |
| `EventUpdates.FlashBurstLeavesLatest` | public/javascripts/events_updates.js:12-16 | after any burst of flashes only the most recent is visible |
| `EventUpdates.EventNotifier.constructor` | public/javascripts/events_updates.js:31-46 | a connection exists exactly when the browser supports WebSocket; nothing is scheduled |
| `EventUpdates.EventNotifier.ShowFlashMessage` | public/javascripts/events_updates.js:2-29 | with the container present it holds the new flash first and no other flash, and fade and reload are scheduled; without it nothing changes or is scheduled; default type "success", default delay 5000 |
| `EventUpdates.EventNotifier.OnMessage` | public/javascripts/events_updates.js:52-55 | every frame, whatever its data, shows the same success notice with the default 5000 ms schedule |
| `EventUpdates.EventNotifier.OnClose` | public/javascripts/events_updates.js:61-67 | a close schedules one reload after 5000 ms and nothing else |
| `LiveVotes.VoteRow` | public/javascripts/live_parse_messages.js:36-44 | the row has exactly four cells: userName, message, optionText, confidence |
| `LiveVotes.StepSpec` | public/javascripts/live_parse_messages.js:23-52 | a vote_detection for a table with a body adds exactly one row at its front; other tables, other types, missing elements and frames that are not JSON change nothing |
| `LiveVotes.FeedPrependsNewestFirst` | public/javascripts/live_parse_messages.js:47-49 | n vote detections for a table put their rows above the old ones, newest first; the count grows by exactly n, with no cap |
| `LiveVotes.FeedLeavesOthers` | public/javascripts/live_parse_messages.js:28-32 | a table that no vote_detection targets is left exactly as it was |
| `LiveVotes.VoteFeed.constructor` | public/javascripts/live_parse_messages.js:2-17 | a connection exists exactly when the browser supports WebSocket |
| `LiveVotes.VoteFeed.OnMessage` | public/javascripts/live_parse_messages.js:23-52 | the tables become Step of the old tables and the frame |
| `ChatApp.ArrivalOrderKept` | public/javascripts/app.js:62-67 | received messages are appended after the old list, verbatim and in arrival order |
| `ChatApp.OpenThenMessages` | public/javascripts/app.js:41-45 | after open and then messages, the "Connected" marker is first, then the old list, then the messages in order |
| `ChatApp.KeyOf` | public/javascripts/app.js:51-52 | the key code is `keyCode` unless that is 0, and then `which`; a keypress counts as Enter exactly when keyCode is 13, or keyCode is 0 and which is 13 |
| `ChatApp.ChatClient.constructor` | public/javascripts/app.js:1-33 | with WebSocket support a connection exists and the send button is disabled; without it there is no connection and the button is untouched |
| `ChatApp.ChatClient.OnOpen` | public/javascripts/app.js:36-56 | the button is enabled, the listeners are installed, and one "Connected" marker goes at the front of the list |
| `ChatApp.ChatClient.OnMessage` | public/javascripts/app.js:62-67 | the data is appended at the end of the list, verbatim |
| `ChatApp.ChatClient.Send` | public/javascripts/app.js:22-26 | the input text is handed to the connection and the input is left empty |
| `ChatApp.ChatClient.OnClick` | public/javascripts/app.js:48 | after open a click sends; before open nothing happens |
| `ChatApp.ChatClient.OnKeyPress` | public/javascripts/app.js:50-55 | after open, exactly an Enter keypress sends; any other key, or any key before open, changes nothing |

The class invariants add two promises. `UserEventsInterface.Valid` says no
slider value exceeds its max, and an indicator exists only inside its
anchor. Every method that changes
sliders keeps it. `ChatClient.Valid` says the send button is disabled
exactly until the connection opens.

## Left out

- The WebSocket transport (handshake, framing, delivery) is left out. It is
  reduced to open, message, close and error calls on each class, and a log
  of frames handed to `send`. The `readyState` is set by those calls. An
  error event leaves it Closed, as a failed connection is closed by then.
- `JSON.parse` is left out. Frames arrive already decoded (`Frame`,
  `FeedFrame`), with one case for text that is not JSON.
- Field values are modelled as integers or texts, not as arbitrary JSON
  values. A missing `data.event` in an `eventUpdate` throws in the source;
  that case is not modelled.
- Timers are recorded as pending (delay, action) entries and never fire.
  Fade opacity is not modelled. `location.reload()` is the
  `reloadRequested` flag or a pending Reload entry.
- `UserEvents.UserEventsInterface.ShowError`: the error element's 5-second
  auto-hide and its visibility are presentational and not modelled.
- CSS, `console.log` and `console.error` are left out. The open and error
  handlers of events_updates.js, the open, error and close handlers of
  live_parse_messages.js, and the error handler of app.js only log, so they
  have no member.
- `getScriptParamUrl` (the last `<script>` tag's `data-url`) is left out.
  The URL is not modelled in the three public scripts.
- Selector matching is left out. `[data-channel="c"] .balance` is the
  labels whose channel is c. `[data-channel="c"] .confidence-slider` is
  the sliders whose channel is c. The slider with id `confidence-<pollId>`
  is the first slider carrying that poll id.
- `EventUpdates.EventNotifier.ShowFlashMessage`: `querySelectorAll` finds
  flash messages at any depth below the container. The model removes them
  from its direct children only.
- `LiveVotes.VoteRow`: the cells are built through `innerHTML`, so markup
  inside a field (such as `</td><td>`) would be parsed as more cells. The
  model treats field values as plain cell text.
- `UserEvents.UserEventsInterface.OnSliderInput`: the browser clamps range
  input values into [min, max]. The model takes that as a precondition
  (value at most max). When `max` is lowered, the browser's own
  re-sanitising of the value is not modelled.
- `UserEvents.UserEventsInterface.UpdateBalanceDisplay`: the model runs
  lines 172-176 as written, so a clamped slider's display shows the new
  balance. In a browser, assigning `max` at line 172 already lowers the
  value, the test at line 173 then fails, and the display keeps its old
  text. That case is the finding below. The range input's `min` and `step`
  are not modelled.
- JavaScript numbers are doubles. Balances and slider values are unbounded
  integers, and fractional or non-numeric balances are not modelled.
- Registering a listener with `addEventListener` is a flag
  (`ChatClient.listening`) or a precondition. The slider, radio and submit
  listeners exist for a poll with a vote form and a slider
  (`pollId in forms` and a slider carrying `pollId`). It is not a list of
  callbacks.
- `ChatApp.ChatClient.OnInput` stands for the user typing into the input
  field. It is an environment action, not code from the source.
- server/test/controllers/WebSocketClient.java is not part of this model.
  It is a test harness doing network I/O and printing.

## Findings

| source | as written | input that shows it | evidently intended | confidence | as-written member | corrected member |
|---|---|---|---|---|---|---|
| server/public/javascripts/userEventsInterface.js:172-176 | `slider.max = newBalance` runs before `parseInt(slider.value) > newBalance`; a browser has already lowered the value to the new max, so the test fails and `updateConfidenceDisplay` is never called | a slider of channel c at 60 with max 100, then a balance update of 40 for c: the slider reads 40, its display still reads "60" | a clamped slider's display shows the new balance, the slider's new value | not executed | `UserEvents.SanitisedDisplaysStale`, `UserEvents.StaleDisplayExample` | `UserEvents.ClampedDisplayMatchesSlider` (on `ClampDisplays`, which `UpdateBalanceDisplay` uses) |
