# voicechat core, modelled in Dafny

This project models the decision logic of a clinician–patient voice
translation app. The app is built with Next.js and talks to a realtime speech
service over WebRTC. The model covers these parts:

- **WebRTC helpers** (`webrtc.dfy`):
  - the data-channel message switch, which turns each decoded event into at
    most one text message or one error;
  - the acceptance of the negotiation answer, which must be an OK response
    whose body contains the text `v=0` somewhere;
  - the ICE wait, which resolves on connected or completed and rejects on
    failed, closed or the 10-second timer;
  - the audio-only sender toggle and the "send only when open" gate;
  - `setupWebRTCConnection` as an imperative method over small classes for
    the peer connection, the audio element, the data channel and the media
    tracks. On failure it closes what it built, reports the error once and
    rethrows it.
- **The connector component** (`connector.dfy`). The class `WebRtcConnector`
  mirrors the React state: the connection state, the three session
  resources and the error shown. Calls to the parent are recorded as logs:
  the states it was told, the messages forwarded, and the stop-recording
  requests. Its methods are the component's handlers:
  - start, stop, error and state change;
  - text messages;
  - the microphone effect;
  - sending a command.

  `Valid()` holds after every handler. It says the three resources exist
  together, and only while the state is new, connecting or connected. The
  source has two behaviours worth noting, and the model keeps both:
  - A setup failure reaches `handleError` twice, once from the setup's own
    catch and once from `startConversation`'s catch.
  - The `"error"` state offers no control at all (`ControlsPerState`).
- **The credential fetch** (`ephemeral_key.dfy`):
  - the role picks the speech language;
  - a non-OK response, a malformed body and a thrown call each become the
    error that is rethrown;
  - on success the result is exactly the body's `ephemeral_key` object.
- **The conversation page** (`conversation.dfy`):
  - an append-only turn list;
  - the simulated microphone cycle;
  - the keyword rule that raises a pending `lab_order` action;
  - confirm or cancel by id;
  - the pending view;
  - "repeat last".
- **Action dispatch**:
  - the `POST /api/execute-action` route (`execute_action.dfy`) and
    `executeWebhook` (`webhooks.dfy`);
  - validation, the closed type-to-URL routing, the `{actionType, data,
    timestamp}` envelope, and how the two report a webhook that answers
    with an error status.
- **Small pure parts**:
  - the closed role, message-kind and language sets, the language
    whitelist and the label table (`types.dfy`);
  - the admin screen's case-insensitive search (`admin.dfy`).

Shared helpers:
- `wrappers.dfy`: `Option`, `Result`.
- `text.dfy`: `includes`, `toLowerCase`, decimal rendering.
- `json.dfy`: decoded JSON values, truthiness, template-literal rendering.
- `http.dfy`: a `fetch` outcome.
- `sequences.dfy`: `filter`.

Each `fetch` is an input: either the message it threw, or a status, a
status text and a body. Clock readings are inputs as well. Each timer is a
step taken when it fires.

## Model

| member | source | states |
|---|---|---|
| Types.ParseRole | src/lib/types.ts:2-7 | a string is read as a role only when it is exactly that role's name |
| Types.RoleRoundTrip | src/lib/types.ts:2-7 | each of the five roles is named by a string that reads back as that role |
| Types.ParseType | src/lib/types.ts:8 | a string is read as a message kind only when it is exactly that kind's name |
| Types.TypeRoundTrip | src/lib/types.ts:8 | each of the three message kinds reads back from its name |
| Types.ParseLanguage | src/lib/types.ts:9 | a string is read as a language only when it is exactly that language's code |
| Types.LanguageRoundTrip | src/lib/types.ts:9 | each of the three languages reads back from its code |
| Types.IsValidLanguage | src/lib/types.ts:10-12 | true iff the string is the code of one of the languages en, es, zh |
| Types.IsValidLanguageCaseSensitive | src/lib/types.ts:11 | "EN", "Es" and "" are rejected; "en", "es", "zh" are accepted |
| Types.TranslationsCoverValidLanguages | src/lib/types.ts:13-62 | the label table has an entry for a code iff the code is a valid language |
| Types.TranslationEntriesShareKeys | src/lib/types.ts:14-61 | every language entry defines the same key set, including `lab_order` and `follow_up` |
| EphemeralKey.FetchEphemeralKey | src/utils/chat/ephemeralKey.ts:6-38 | the request names the role's language; a throw is rethrown unchanged; a non-OK response fails with its status, status text and body; a body that does not decode fails with that error; success iff OK and the body has a truthy `ephemeral_key` with a truthy `value`, and then the result is that object; otherwise the invalid-format error |
| EphemeralKey.RoleLanguage | src/utils/chat/ephemeralKey.ts:11 | "patient" gets "es-ES", every other role "en-US" |
| WebRtc.Interpret | src/utils/chat/webRTC.ts:97-141 | at most one effect; a text message iff the type is one of the two "completed" types, with the event's transcript, role assistant exactly for the assistant type and user otherwise; an error iff the message is malformed or the transcription failed |
| WebRtc.InterpretAllPreservesOrder | src/utils/chat/webRTC.ts:97-141 | over any run of messages the texts handed on are exactly the completed transcripts, in arrival order |
| WebRtc.AssistantDoneGivesOneMessage | src/utils/chat/webRTC.ts:107-109 | `response.audio_transcript.done` gives exactly one assistant message with the transcript, no error |
| WebRtc.UserTranscriptionGivesOneMessage | src/utils/chat/webRTC.ts:103-118 | a completed input transcription gives exactly one user message; the two delta types give nothing |
| WebRtc.FailedTranscriptionGivesOneError | src/utils/chat/webRTC.ts:121-129 | a failed transcription gives exactly one error "Transcription failed: " plus the message, or "Unknown error" when it is missing or empty |
| WebRtc.UnknownAndMalformedEvents | src/utils/chat/webRTC.ts:131-140 | an unrecognised type gives nothing; a message that does not decode gives exactly one error carrying the parse error |
| WebRtc.AcceptAnswer | src/utils/chat/webRTC.ts:172-195 | the answer is accepted iff the response is OK and its body includes "v=0", and then it is the body; a non-OK response fails with the realtime API error, a body without "v=0" with "Invalid SDP response received", a throw with its message |
| WebRtc.VersionLineAccepted | src/utils/chat/webRTC.ts:193-195 | a body that begins with the `v=0` version line is accepted |
| WebRtc.AwaitChangesDecidedByFirstSettling | src/utils/chat/webRTC.ts:202-235 | the first change to connected/completed/failed/closed decides the wait (resolve, or reject naming the state); with no such change the timer rejects with "Connection timed out" |
| WebRtc.AwaitIceResolvesIff | src/utils/chat/webRTC.ts:202-235 | the wait resolves iff the state is already connected or completed, or the first settling change is one of those |
| WebRtc.AwaitIce | src/utils/chat/webRTC.ts:202-235 | a state already connected or completed resolves at once; a resolution needs the initial state or some change to be connected or completed; a rejection is "Connection timed out" or names failed or closed |
| WebRtc.AwaitChanges | src/utils/chat/webRTC.ts:206-225 | resolving needs a change to connected or completed; rejecting is the timeout or names failed or closed, and a rejection other than the timeout needs a change to failed or closed |
| WebRtc.AlreadyFailedWaitsForTimeout | src/utils/chat/webRTC.ts:227-234 | the initial inspection of the state only resolves: a state already failed or closed is left to the timer |
| WebRtc.AudioOnly | src/utils/chat/webRTC.ts:73-78 | the tracks kept are exactly the stream's audio tracks |
| WebRtc.PeerConnection.AddTrack | src/utils/chat/webRTC.ts:76 | one sender carrying the track is appended; nothing else changes |
| WebRtc.PeerConnection.AddReceiveOnlyTransceiver | src/utils/chat/webRTC.ts:82 | one sender without a track is appended; nothing else changes |
| WebRtc.PeerConnection.SetRemoteDescription | src/utils/chat/webRTC.ts:197 | the remote description becomes the answer; nothing else changes |
| WebRtc.PeerConnection.Close | src/utils/chat/webRTC.ts:242 | the connection is closed and records whether audio was still being sent at that moment |
| WebRtc.AudioElement.SetAutoplay | src/utils/chat/webRTC.ts:33 | autoplay is on |
| WebRtc.AudioElement.Release | src/utils/chat/webRTC.ts:243-246 | the element is paused and has no source |
| WebRtc.DataChannel.constructor | src/utils/chat/webRTC.ts:90 | a channel with the given label, connecting, nothing sent |
| WebRtc.DataChannel.Open | src/utils/chat/webRTC.ts:91 | the channel is open; what was sent is unchanged |
| WebRtc.DataChannel.Close | src/components/chat/WebRTCConnector.tsx:113-116 | the channel is closed; what was sent is unchanged |
| WebRtc.DataChannel.Send | src/utils/chat/webRTC.ts:260 | the command is appended to what was sent; the channel's state is unchanged |
| WebRtc.SetAudioEnabled | src/utils/chat/webRTC.ts:273-283 | every audio track on a sender gets the flag, every other track keeps its own; a null connection changes nothing |
| WebRtc.AddLocalTracks | src/utils/chat/webRTC.ts:73-78 | the senders grow by exactly the stream's audio tracks in stream order, each disabled; other tracks are untouched |
| WebRtc.SendCommandViaDataChannel | src/utils/chat/webRTC.ts:254-270 | the command is sent iff the channel exists and is open; otherwise nothing is sent |
| WebRtc.SetupOutcome | src/utils/chat/webRTC.ts:30-238 | setup succeeds iff the local stream is obtained, the answer is accepted and the ICE wait resolves |
| WebRtc.SetupConnection | src/utils/chat/webRTC.ts:16-251 | the result is the setup outcome; the offer carries "Bearer " plus the key; the remote description is set iff the answer is accepted; senders are the audio tracks (disabled) plus the receive-only one; the channel is "client_input"; on failure the connection is closed with no audio sending, the audio released and the error reported exactly once |
| Connector.ControlsPerState | src/components/chat/WebRTCConnector.tsx:216-246 | start only in idle, stop only in connected, reconnect only after disconnected, failed or closed; never two at once; nothing in new, connecting or error |
| Connector.BuildCommand | src/components/chat/WebRTCConnector.tsx:203 | the command has the payload's keys plus `type`; every payload field is kept; `type` is the command type unless the payload overrides it |
| Connector.WebRtcConnector.constructor | src/components/chat/WebRTCConnector.tsx:26-42 | idle, no error, no resources, nothing told to the parent |
| Connector.WebRtcConnector.StopConversation | src/components/chat/WebRTCConnector.tsx:100-133 | all three resources are released (audio disabled before the close) and nulled, the state is idle and the parent told so; stop-recording is requested iff `notifyParent`; the error is kept |
| Connector.ReleaseSession | src/components/chat/WebRTCConnector.tsx:103-117 | the captured connection is closed with no audio still enabled and its audio tracks left disabled, the audio element paused without a source, the data channel closed |
| Connector.WebRtcConnector.HandleError | src/components/chat/WebRTCConnector.tsx:79-97 | the error shows "Error: " plus the message and the parent is told "error"; a live session is then torn down to idle without a stop-recording request |
| Connector.WebRtcConnector.HandleInternalConnectionState | src/components/chat/WebRTCConnector.tsx:44-65 | the state is recorded and forwarded; a drop shows "Connection <state>. Please reconnect." and tears down a live session; connected clears the error; other states keep it; a state that tears nothing down leaves the resources, their tracks and the channel untouched |
| Connector.WebRtcConnector.HandleTextMessage | src/components/chat/WebRTCConnector.tsx:67-77 | the message is forwarded; stop-recording is requested iff the role is assistant |
| Connector.WebRtcConnector.OnChannelMessage | src/components/chat/WebRTCConnector.tsx:154-160 | a channel message reaches the component as its interpretation says: nothing, or one forwarded message, each leaving the session resources untouched; or one error, which tears a live session down and releases it |
| Connector.WebRtcConnector.MicEffect | src/components/chat/WebRTCConnector.tsx:181-189 | the audio tracks follow `isRecording` only while a connection exists and the state is connected or connecting; otherwise nothing changes |
| Connector.WebRtcConnector.ChannelOpened | src/utils/chat/webRTC.ts:91 | the session's data channel becomes open, so later commands go out; nothing already sent changes |
| Connector.WebRtcConnector.SendCommand | src/components/chat/WebRTCConnector.tsx:201-207 | the built command is sent iff the data channel exists and is open; the channel's state is unchanged |
| Connector.WebRtcConnector.StartConversation | src/components/chat/WebRTCConnector.tsx:135-178 | the error is cleared and "connecting" told first; a failed fetch ends in error with its message; a failed setup ends in error after two error reports; a successful setup stores fresh open resources with the accepted answer and stays connecting |
| Connector.WebRtcConnector.ConnectWithKey | src/components/chat/WebRTCConnector.tsx:150-171 | a failed setup ends in error with the setup's message after two error reports and no connection; a successful one stores fresh resources, with the accepted answer, and stays connecting |
| Conversation.RoleFromQuery | src/app/conversation/page.tsx:38 | a missing or empty parameter gives "clinician"; any other value is kept as given |
| Conversation.ConversationPage.constructor | src/app/conversation/page.tsx:38-86 | the role from the query, the clinician view iff it is "clinician", the four mock turns, no actions, not recording or translating |
| Conversation.DetectsLabOrder | src/app/conversation/page.tsx:121 | a lab order is detected iff the view is the clinician's and the lowercased text has "tests" at some position |
| Conversation.ClinicianTurnRaisesLabOrder | src/app/conversation/page.tsx:121 | the clinician's simulated turn mentions "tests", so it raises a lab order; the patient view never does |
| Conversation.DetectionIgnoresCase | src/app/conversation/page.tsx:121 | the keyword rule gives the same answer for a text and its lowercase form |
| Conversation.ConfirmById | src/app/conversation/page.tsx:147-149 | same length and order; each action with the id gets the answer, every other field and action is unchanged |
| Conversation.ConfirmUnknownIdIsNoOp | src/app/conversation/page.tsx:147-149 | an id no action has leaves the list unchanged |
| Conversation.LaterAnswerWins | src/app/conversation/page.tsx:147-149 | answering twice equals answering once with the second answer: no exactly-once guard |
| Conversation.Pending | src/app/conversation/page.tsx:242-243 | exactly the unanswered actions, as an order-preserving sub-list, each as often as in the full list |
| Conversation.AnsweredLeavesPending | src/app/conversation/page.tsx:242-243 | after an answer for an id, no pending action has that id |
| Conversation.LastFromOther | src/app/conversation/page.tsx:139 | none iff every turn is the viewer's; otherwise a turn of another role after which every turn is the viewer's |
| Conversation.LastOtherIndex | src/app/conversation/page.tsx:139 | the search from the back of a prefix finds nothing iff every turn in it is the viewer's; otherwise an index of another role's turn after which every turn in the prefix is the viewer's |
| Conversation.RepeatPlayback | src/app/conversation/page.tsx:137-145 | nothing is played iff no other-role turn exists; else that turn's text in the clinician view and its translation otherwise |
| Conversation.ConversationPage.MicPress | src/app/conversation/page.tsx:94-96 | recording is on |
| Conversation.ConversationPage.MicRelease | src/app/conversation/page.tsx:98-104 | recording is off, translating on, and one more translation timer is outstanding |
| Conversation.ConversationPage.TranslationArrives | src/app/conversation/page.tsx:102-121 | only after a release scheduled it: the translation timer is consumed, the new turn is appended after all earlier ones, translating ends, and a lab-order timer is scheduled iff the keyword rule holds |
| Conversation.ConversationPage.LabOrderTimerFires | src/app/conversation/page.tsx:122-133 | one pending `lab_order` action, "Blood test order detected", is appended |
| Conversation.ConversationPage.ConfirmAction | src/app/conversation/page.tsx:147-149 | the actions become the by-id update of the previous ones |
| Conversation.ConversationPage.PendingActions | src/app/conversation/page.tsx:242-243 | the alerts shown are exactly the unanswered actions, each as often as in the list |
| Conversation.ConversationPage.Repeat | src/app/conversation/page.tsx:137-145 | plays nothing iff every turn is the viewer's; otherwise the text or translation of the latest other-role turn |
| Text.NatToStringInjective | src/app/conversation/page.tsx:104 | distinct clock readings give distinct ids |
| Admin.FilteredConversations | src/app/admin/page.tsx:53-57 | exactly the rows whose lowercased patient id or summary includes the lowercased term, as an order-preserving sub-list, each as often as in the input |
| Admin.EmptyTermKeepsAll | src/app/admin/page.tsx:53-57 | an empty term keeps every row |
| Admin.CaseOfTermIrrelevant | src/app/admin/page.tsx:55-56 | terms equal up to letter case select the same rows |
| Admin.LoweredTermSameResult | src/app/admin/page.tsx:55-56 | searching for the lowercased term gives the same rows |
| Webhooks.ParseAction | src/lib/webhooks.ts:9-12 | a string is read as a supported action only when it is exactly that action's name |
| Webhooks.ActionNameRoundTrip | src/lib/webhooks.ts:9-12 | each supported action reads back from its name |
| Webhooks.EnvOr | src/lib/webhooks.ts:2-7 | a set, non-empty variable wins; unset or empty gives the default |
| Webhooks.WebhookUrl | src/lib/webhooks.ts:24-27 | `SEND_LAB_ORDER` goes to the lab-order URL, every other type to the follow-up URL |
| Webhooks.ExecuteWebhook | src/lib/webhooks.ts:20-53 | exactly one POST, to the type's URL, whose envelope names the type and carries the data unchanged with the timestamp; the result is true iff a response arrives with a 2xx status |
| Webhooks.ThrownIsNotDelivered | src/lib/webhooks.ts:49-52 | a throwing call returns false after its one attempt |
| Webhooks.DefaultTargets | src/lib/webhooks.ts:2-7 | with the variables unset the URLs are the two defaults |
| ExecuteAction.Complete | src/app/api/execute-action/route.ts:17 | passing the check needs both fields present and not `null`; a non-empty string type with any object payload, even `{}`, passes, and so does the type `true`: the test is truthiness, not a string check |
| ExecuteAction.Target | src/app/api/execute-action/route.ts:27-40 | only the strings "lab_order" and "follow_up" have a target, the lab-order and follow-up URL respectively |
| ExecuteAction.ServerError | src/app/api/execute-action/route.ts:69-77 | status 500 with the error's message, or the default when it is empty |
| ExecuteAction.Post | src/app/api/execute-action/route.ts:13-78 | unreadable body: 500, no POST; missing or falsy type or payload: 400 "Missing action type or payload", no POST; unrouted type: 400 "Unsupported action type: <type>", no POST; otherwise exactly one POST of `{actionType, data, timestamp}` to the routed URL, then 200 "Action '<type>' successfully triggered." for any response, 500 for a throw |
| ExecuteAction.ReplyStatuses | src/app/api/execute-action/route.ts:13-78 | every reply is 200, 400 or 500; only 200 carries a message; a 200 always follows one POST |
| ExecuteAction.OutcomeAccounting | src/app/api/execute-action/route.ts:56-68 | for the same webhook outcome: non-OK is 200 in the route but false in `executeWebhook`; OK is 200 and true; a throw is 500 and false; both POST exactly once |
| ExecuteAction.TargetsAgreeOnlyWhenConfigured | src/app/api/execute-action/route.ts:4-10 | with both variables set the route and `executeWebhook` post an action to the same URL; with neither set, to different default URLs |

## Left out

- Browser and WebRTC APIs are inputs, not models:
  - `getUserMedia` is a stream or a thrown message;
  - the offer POST is a `fetch` outcome;
  - the ICE state is an initial state plus the changes seen before the timer.
- Offer creation, the local description, ICE candidate logging and incoming
  audio playback (`ontrack`) are not modelled.
- The `onError` calls from a failed `play()` and from the data channel's
  `onerror` are not modelled as separate events. Each only calls the
  connector's error handler, which `HandleError` models.
- The peer connection's `onconnectionstatechange` forwarding is the
  connector's `HandleInternalConnectionState`. Its `?? "disconnected"`
  fallback for a missing connection is not modelled.
- JSON parsing and serialisation are not modelled. Events arrive as decoded
  records or as a malformed message.
- `transcript` is modelled as a string. A missing or non-string transcript is
  not modelled.
- A credential response body that decodes to something other than an object
  is not modelled. A data-channel payload that is a number, string, boolean
  or array is the event with an empty `type`, which matches no case; a
  `null` payload is a malformed message, since reading its `type` throws.
- `dc.send` throwing is not modelled. The source catches and logs it, so
  nothing observable follows.
- Timers are steps:
  - the 10-second ICE timer fires after the listed changes;
  - the 2000 ms translation delay is `TranslationArrives`;
  - the 1000 ms action delay is `LabOrderTimerFires`.
- Clock readings (`Date.now()`, `new Date()`, `toISOString()`) are
  parameters. Two ids taken in the same millisecond would collide, and
  `ConfirmById` then answers both, as the source's `map` does.
- React scheduling and stale closures are not modelled. Handlers read the
  current state, in sequence. One closure detail is kept: `stopConversation`'s
  second `setAudioEnabled` uses the connection it captured, not the nulled
  field.
- Toasts, console logging, scrolling, rendering and styling are left out.
  The unmount cleanup is `StopConversation(false)`.
- The connector's second `!ephemeralKey?.value` guard (WebRTCConnector.tsx:146-148)
  can never throw. `FetchEphemeralKey` already guarantees a truthy `value`,
  so the model has no branch for it. A missing credential value ends in
  `"error"` through the fetch's own invalid-format error.
- WebRtc.SetupOutcome and WebRtc.SetupConnection: a rejection by
  `setRemoteDescription` (webRTC.ts:197) is not modelled. An accepted answer
  is always taken as the remote description.
- `toLowerCase` lowers the ASCII letters only. JSON numbers are integers.
- Connector.WebRtcConnector.StartConversation: its precondition is that start
  or reconnect is offered. Those two buttons are the only callers in the
  component.
- The landing page, the summary page, the prompt constant, and the
  ephemeral-key, TTS and conversation API routes are not part of this model.
  They are static or proxy code.
