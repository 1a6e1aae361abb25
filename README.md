# Chat widget core, modelled in Dafny

This project models the three pieces of the chat widget that carry logic:

- **The socket hook** (`useWebSocket`). It holds a connection status, the
  last inbound message, a reconnect timer and an attempt counter. Its
  `connect()` constructs a socket. The socket's open, message and close
  handlers drive the status. An abnormal close schedules a reconnect after
  `min(1000 · 2^attempts, 10000)` ms, at most five times. Close code 1000
  never reconnects. `disconnect()` cancels the timer in the ref and closes
  the socket with code 1000. `sendMessage` transmits only while the socket
  is OPEN.
- **The chat screen** (`ChatInterface`). It shows a message list that
  starts with (and is cleared back to) a fixed greeting. It guards sending
  against blank input and a missing user. It answers locally after a timer
  with a canned reply chosen by a first-match keyword classifier. It
  forwards the message over the socket when the status is Open. It handles
  inbound `message` and `typing` payloads.
- **The voice recorder** (`VoiceRecorder`). It checks for support at mount.
  Its `isRecording` flag follows the recognizer's start, error and end
  events. Its start and stop buttons are guarded. Its result handler folds
  results from `resultIndex` on into a final and an interim transcript.

## Files

- `wrappers.dfy` holds `Option`.
- `text.dfy` models the JavaScript string operations the core uses:
  `trim`, `includes`, `toLowerCase` and `Number.prototype.toString` for
  naturals. `trim` and `includes` are tied to independent
  characterisations (whitespace prefixes and suffixes, an occurrence at
  some index). `toLowerCase` has its algebraic laws and the absence of
  capitals in its result. `toString` is tied to the value its digits
  denote.
- `transport.dfy` models the hook in two layers:
  - a pure state machine over `HookState`, with one step function per
    event (`AfterConnect`, `AfterOpen`, `AfterClose`, `AfterTimer`,
    `AfterDisconnect`, `AfterSend`, …) and lemmas about single events and
    about whole runs;
  - the class `WebSocketHook`, whose fields are the hook's React state and
    refs. Each handler method is proved to move `State()` exactly as the
    matching step function does.
- `chat.dfy` holds two things:
  - the reply generator. `Branch` is the source's if-chain and names the
    branch taken. `ReplyFor` holds the six reply texts. The generator's
    result is the text of the branch taken on the lower-cased input.
    `Branch` is proved equal to an independent table-driven first-match
    definition;
  - the class `ChatInterface`. It owns a `WebSocketHook`, and its
    invariant keeps the greeting at the head of the list.
- `voice.dfy` holds the result fold, a loop proved against the `Collect`
  specification, and the class `VoiceRecorder`.

Time, the signed-in user, browser capabilities and the socket's events are
parameters. Timers, sockets and the recognizer are modelled by what the
component observes and calls. The socket hook is modelled by events:
`connect()` and `disconnect()` calls, socket open, message and close
events, timer firings, and send calls.

## Where the documented behaviour and the code differ

In each case below the model follows the code.

- `connect()` is not idempotent. Each call constructs a new socket. The
  previous socket is not closed, and the attempt counter is not reset
  (useWebSocket.ts:21-26). Only an open event resets the counter
  (useWebSocket.ts:30).
- `disconnect()` does not set the status to Closed. The status changes only
  when the socket's close event arrives (useWebSocket.ts:63-73, 39).
- The initial status is `Closed`. There is no separate idle state
  (useWebSocket.ts:14).
- `disconnect()` clears only the timer held in the ref
  (useWebSocket.ts:64-67). Timers are not cancelled in general. If
  `connect()` is called while a reconnect is pending, the next abnormal
  close overwrites the ref. The earlier timer then survives
  `disconnect()`, and when it fires it reconnects.
  `Transport.DisconnectMayLeaveOrphanTimer` proves this on a concrete run.
- `disconnect()` called while the socket is still CONNECTING does not
  prevent a reconnect. Browsers report a close during the handshake with
  code 1006, not the requested 1000, and the close handler treats that code
  as abnormal and schedules a retry (useWebSocket.ts:38-49, 63-73).
  `Transport.DisconnectWhileConnectingReconnects` shows this on a run; the
  1006 code itself is browser behaviour, so the model lets the close event
  carry it.
- The recorder's effect depends on `onTranscript` (VoiceRecorder.tsx:81-86).
  The chat screen passes a fresh `handleVoiceInput` closure on every render
  (ChatInterface.tsx:143-145, 211), so any render of the chat screen, such
  as the one a bot reply or a typing event causes, aborts the current
  recognizer and constructs a new one. `Voice.VoiceRecorder.Remount` models
  that re-run.
- Voice needs both recognition and synthesis. Lacking either one makes the
  recorder unsupported (VoiceRecorder.tsx:23).

## Model

| member | source | states |
|---|---|---|
| Text.TrimStart | src/components/chat/ChatInterface.tsx:71 | The result is a suffix of the input, everything removed is whitespace, and it does not start with whitespace. |
| Text.TrimEnd | src/components/chat/ChatInterface.tsx:71 | The result is a prefix of the input, everything removed is whitespace, and it does not end with whitespace. |
| Text.TrimEmptyIffBlank | src/components/chat/ChatInterface.tsx:71 | `trim()` is empty exactly when every character is whitespace, including the empty string. |
| Text.TrimUntouched | src/components/chat/ChatInterface.tsx:71 | A non-empty string with no whitespace at either end is its own trim. |
| Text.ContainsIffOccurs | src/components/chat/ChatInterface.tsx:113-131 | `includes` holds exactly when the keyword occurs at some index, in both directions. |
| Text.ContainsAt | src/components/chat/ChatInterface.tsx:113-131 | An occurrence at a given index makes `includes` true. |
| Text.LowerChar | src/components/chat/ChatInterface.tsx:111 | Lower-casing a character yields no ASCII capital. |
| Text.LowerCaseAppend | src/components/chat/ChatInterface.tsx:111 | Lower-casing distributes over concatenation. |
| Text.LowerCharFixed | src/components/chat/ChatInterface.tsx:111 | Lower-casing the lower-cased form of a character changes nothing. |
| Text.LowerCaseIdempotent | src/components/chat/ChatInterface.tsx:111 | `toLowerCase` applied twice is `toLowerCase` applied once. |
| Text.Trim | src/components/chat/ChatInterface.tsx:71 | `trim()` is no longer than its input and neither starts nor ends with whitespace; `TrimEmptyIffBlank` and `TrimUntouched` pin it down further. |
| Text.Contains | src/components/chat/ChatInterface.tsx:113-131 | `includes`, specified by `ContainsIffOccurs`: it holds exactly when the keyword occurs at some index. |
| Text.LowerCase | src/components/chat/ChatInterface.tsx:111 | `toLowerCase` yields no ASCII capital and never shortens the input; `LowerCaseAppend` and `LowerCaseIdempotent` give its laws. |
| Text.DecimalString | src/components/chat/ChatInterface.tsx:74 | `Date.now().toString()` is a non-empty string of decimal digits that starts with '0' only for 0, and the digits denote exactly the given number, so an id is never empty. |
| Text.DecimalStringInjective | src/components/chat/ChatInterface.tsx:74 | Two times give the same decimal string exactly when they are equal. |
| Transport.Pow2 | src/hooks/useWebSocket.ts:44 | `2^n` is at least 1. |
| Transport.Backoff | src/hooks/useWebSocket.ts:44 | The reconnect delay lies between 1000 and 10000 ms. |
| Transport.Pow2Monotone | src/hooks/useWebSocket.ts:44 | `2^a <= 2^b` when `a <= b`. |
| Transport.BackoffMonotone | src/hooks/useWebSocket.ts:44 | The delay never shrinks as the attempt count grows. |
| Transport.BackoffCapped | src/hooks/useWebSocket.ts:44 | From the fifth attempt on (count 4 or more) the delay is the 10000 ms cap. |
| Transport.BackoffsUpTo | src/hooks/useWebSocket.ts:43-44 | The delays scheduled at attempt counts 0 to n-1 number exactly n. |
| Transport.BackoffsOfOneChain | src/hooks/useWebSocket.ts:19-49 | The five delays of one chain are exactly 1000, 2000, 4000, 8000 and 10000 ms. That list never decreases and stays within 1000 to 10000. |
| Transport.Initial | src/hooks/useWebSocket.ts:14-19 | The initial state is well formed, Closed, with attempts 0. |
| Transport.Mounted | src/hooks/useWebSocket.ts:83-86 | The mount effect yields a well-formed state. |
| Transport.AfterConnect | src/hooks/useWebSocket.ts:21-61 | `connect()` keeps the state well formed; `ConnectOutcome` gives its full effect. |
| Transport.AfterOpen | src/hooks/useWebSocket.ts:28-32 | The open handler keeps the state well formed; `OpenResets` gives its effect. |
| Transport.AfterMessage | src/hooks/useWebSocket.ts:34-36 | The message handler keeps the state well formed; `MessageOverwrites` gives its effect. |
| Transport.AfterClose | src/hooks/useWebSocket.ts:38-51 | The close handler keeps the state well formed; `CloseRetryRule` gives its effect. |
| Transport.AfterTimer | src/hooks/useWebSocket.ts:45-49 | A reconnect timer's firing keeps the state well formed; `AttemptsCounter` and `SocketsCreatedOnlyByConnect` give its effect. |
| Transport.AfterDisconnect | src/hooks/useWebSocket.ts:63-73 | `disconnect()` keeps the state well formed; `DisconnectOutcome` gives its effect. |
| Transport.AfterSend | src/hooks/useWebSocket.ts:75-81 | `sendMessage` keeps the state well formed; `SendOnlyWhenOpen` gives its effect. |
| Transport.Step | src/hooks/useWebSocket.ts:21-81 | Every event keeps the state well formed. |
| Transport.Run | src/hooks/useWebSocket.ts:21-81 | Every sequence of events keeps the state well formed; `RunAppend` composes runs. |
| Transport.ConnectOutcome | src/hooks/useWebSocket.ts:21-60 | `connect()` does nothing when disabled. A failed construction sets Closed. Otherwise a new socket becomes current and the status is Connecting. The counter and the timers never change. |
| Transport.OpenResets | src/hooks/useWebSocket.ts:28-32 | An open event sets Open, resets attempts to 0 and marks the socket OPEN. |
| Transport.MessageOverwrites | src/hooks/useWebSocket.ts:34-36 | A message event stores its data as the last message and changes nothing else. |
| Transport.CloseRetryRule | src/hooks/useWebSocket.ts:38-51 | Any close sets Closed. Code 1000, or 5 or more attempts, schedules nothing. Otherwise exactly one timer is scheduled with `Backoff(attempts)` and becomes the ref's timer. |
| Transport.AttemptsCounter | src/hooks/useWebSocket.ts:28-48 | The counter rises by one exactly when a pending timer fires, drops to 0 on open and is otherwise unchanged. |
| Transport.SocketsCreatedOnlyByConnect | src/hooks/useWebSocket.ts:21-49 | Each event creates at most one socket, and only a `connect()` call or a firing timer creates one. |
| Transport.DisconnectOutcome | src/hooks/useWebSocket.ts:63-73 | `disconnect()` cancels the ref's timer, closes the current socket with 1000, drops the handle, and leaves status and attempts alone. |
| Transport.DisconnectCancelsTimer | src/hooks/useWebSocket.ts:63-67 | When the ref holds every pending timer, nothing is pending after `disconnect()`. |
| Transport.SendOnlyWhenOpen | src/hooks/useWebSocket.ts:75-81 | A message is transmitted exactly when the current socket is OPEN, to that socket, and otherwise dropped. |
| Transport.NeverClosing | src/hooks/useWebSocket.ts:14-60 | No run ever reaches the Closing status. |
| Transport.MountedNeverClosing | src/hooks/useWebSocket.ts:83-86 | No run of a mounted hook reaches Closing. |
| Transport.SinglePendingSize | src/hooks/useWebSocket.ts:45 | On a single retry chain at most one timer is pending, namely the ref's. |
| Transport.MountedIsChain | src/hooks/useWebSocket.ts:83-86 | A freshly mounted hook is a single retry chain. |
| Transport.ChainStep | src/hooks/useWebSocket.ts:38-51 | Every event except an extra `connect()` keeps the chain single. |
| Transport.RetryChainBounded | src/hooks/useWebSocket.ts:19-49 | Starting from an open socket, closes, timers, messages and sends schedule at most 5 reconnects. Their delays are a prefix of 1000, 2000, 4000, 8000, 10000, and at most 5 sockets are created. |
| Transport.BackoffsPrefix | src/hooks/useWebSocket.ts:43-44 | The schedule for n attempts is a prefix of the schedule for m ≥ n attempts. |
| Transport.NoReconnectAfterDisconnect | src/hooks/useWebSocket.ts:63-73 | From a single retry chain (`SingleTimer`: at most the ref's timer pending), after `disconnect()`, with no `connect()` call and only normal closes, no socket is created and no timer is pending, however many events follow. |
| Transport.ChainRun | src/hooks/useWebSocket.ts:21-81 | A run without an extra `connect()` call keeps a single retry chain single. |
| Transport.NoReconnectAfterUnmount | src/hooks/useWebSocket.ts:63-91 | For a mounted hook after any run without an extra `connect()` call, the unmount's `disconnect()` followed by normal closes, messages and sends leaves nothing pending and creates no socket. |
| Transport.DisconnectWhileConnectingReconnects | src/hooks/useWebSocket.ts:38-73 | `disconnect()` on a connecting socket whose close event carries 1006 leaves a reconnect pending, and its firing constructs a socket. |
| Transport.RunAppend | src/hooks/useWebSocket.ts:21-81 | Running two event sequences one after the other is running their concatenation. |
| Transport.OrphanFirstHalf | src/hooks/useWebSocket.ts:43-49 | After mount, an abnormal close and a further `connect()`, a new socket is connecting while the 1000 ms reconnect timer is still pending in the ref. |
| Transport.DisconnectMayLeaveOrphanTimer | src/hooks/useWebSocket.ts:43-67 | Mount, abnormal close, `connect()`, abnormal close, then `disconnect()` leaves a timer pending, and when it fires it constructs a socket. |
| Transport.WebSocketHook.constructor | src/hooks/useWebSocket.ts:13-19 | The hook starts with the initial state, then runs the mount effect's `connect()` when enabled. |
| Transport.WebSocketHook.Connect | src/hooks/useWebSocket.ts:21-61 | The fields change exactly as `AfterConnect` says. |
| Transport.WebSocketHook.OnOpen | src/hooks/useWebSocket.ts:28-32 | The fields change exactly as `AfterOpen` says. |
| Transport.WebSocketHook.OnMessage | src/hooks/useWebSocket.ts:34-36 | The fields change exactly as `AfterMessage` says. |
| Transport.WebSocketHook.OnClose | src/hooks/useWebSocket.ts:38-51 | The fields change exactly as `AfterClose` says. |
| Transport.WebSocketHook.OnReconnectTimer | src/hooks/useWebSocket.ts:45-49 | The fields change exactly as `AfterTimer` says: the counter increments and `connect()` runs. |
| Transport.WebSocketHook.Disconnect | src/hooks/useWebSocket.ts:63-73 | The fields change exactly as `AfterDisconnect` says. |
| Transport.WebSocketHook.SendMessage | src/hooks/useWebSocket.ts:75-81 | The fields change exactly as `AfterSend` says. |
| Chat.GenerateBotResponse | src/components/chat/ChatInterface.tsx:110-134 | The reply of the branch the if-chain takes on the lower-cased input; specified by `ResponseIsFirstMatch`. |
| Chat.ResponseIsFirstMatch | src/components/chat/ChatInterface.tsx:110-134 | The generated reply is the reply of the group the table lookup picks for the lower-cased input. |
| Chat.Branch | src/components/chat/ChatInterface.tsx:113-133 | Specified by `BranchIsFirstMatch`: the if-chain's branch is the table-driven first match. |
| Chat.ReplyFor | src/components/chat/ChatInterface.tsx:114-133 | The six reply texts, one per branch; `ResponseIsFirstMatch` ties it to the classifier. |
| Chat.InboundId | src/components/chat/ChatInterface.tsx:55 | An inbound message's id is never empty, and it is the payload's id whenever that is present and non-empty. |
| Chat.FirstMatch | src/components/chat/ChatInterface.tsx:113-133 | The table lookup returns a listed group or the default. |
| Chat.MentionsSpelledOut | src/components/chat/ChatInterface.tsx:113-131 | Each keyword group holds exactly the source's keywords. |
| Chat.BranchIsFirstMatch | src/components/chat/ChatInterface.tsx:113-133 | The branch the if-chain takes is the first group, in priority order, whose keyword table entry the input mentions, or the default when none is. |
| Chat.FirstMatchIff | src/components/chat/ChatInterface.tsx:113-131 | In a duplicate-free list, group k is chosen exactly when it is mentioned and no earlier group is. |
| Chat.FirstMatchFallback | src/components/chat/ChatInterface.tsx:133 | The fallback is chosen exactly when no group is mentioned. |
| Chat.ResponsePrecedence | src/components/chat/ChatInterface.tsx:110-134 | The input falls in group k (whose reply it then gets) exactly when its lower-cased form mentions group k and no earlier group. It falls in the default group exactly when it mentions no group. |
| Chat.HiMeansGreeting | src/components/chat/ChatInterface.tsx:113-115 | Any input containing "hi" after lower-casing gets the greeting group, whatever else it mentions. |
| Chat.ResponseIgnoresCase | src/components/chat/ChatInterface.tsx:111 | An input and its lower-cased form get the same reply. |
| Chat.LowerCaseOfLower | src/components/chat/ChatInterface.tsx:111 | A string with no character that lower-casing changes is its own lower-case form. |
| Chat.WhichWeatherIsGreeting | src/components/chat/ChatInterface.tsx:113-123 | "which weather" gets the greeting group, not the weather one. |
| Chat.HelloWeatherIsGreeting | src/components/chat/ChatInterface.tsx:113-123 | "hello weather" gets the greeting group. |
| Chat.HiThereIsGreeting | src/components/chat/ChatInterface.tsx:111-115 | "Hi there" gets the greeting group once lower-cased. |
| Chat.EmptyInputIsDefault | src/components/chat/ChatInterface.tsx:133 | The empty input gets the default group. |
| Chat.Outbound | src/components/chat/ChatInterface.tsx:98-106 | The forwarded payload is a `message` that carries the user id, the text and the input type. Its channel is "voice" exactly in voice mode, and "web" otherwise. |
| Chat.ChatInterface.constructor | src/components/chat/ChatInterface.tsx:21-39 | The list is the greeting alone, the input is empty, and text mode, not typing. The hook is mounted, enabled exactly when a user is signed in. |
| Chat.ChatInterface.SetInput | src/components/chat/ChatInterface.tsx:216 | Only the input value changes. |
| Chat.ChatInterface.ToggleVoiceMode | src/components/chat/ChatInterface.tsx:186 | Only the voice-mode flag flips. |
| Chat.ChatInterface.HandleSendMessage | src/components/chat/ChatInterface.tsx:70-107 | The message is accepted exactly when its trim is non-empty and a user is present. A blank or anonymous message changes nothing. An accepted one appends a user message, clears the input, sets typing and arms a reply timer. It is forwarded exactly when the status is Open. |
| Chat.ChatInterface.SubmitInput | src/components/chat/ChatInterface.tsx:136-141 | Enter or the send button sends the current input value, with `HandleSendMessage`'s whole effect: a blank value or missing user changes nothing; otherwise the message is appended, the input cleared, typing set, a local reply armed, and the text forwarded exactly when the socket is Open. |
| Chat.ChatInterface.HandleVoiceInput | src/components/chat/ChatInterface.tsx:143-145 | A transcript is sent with the voice input type, with the same whole effect as `HandleSendMessage`. |
| Chat.ChatInterface.OnLocalReplyTimer | src/components/chat/ChatInterface.tsx:86-95 | The oldest armed timer appends the generated bot reply for its content and clears typing. |
| Chat.ChatInterface.HandleInbound | src/components/chat/ChatInterface.tsx:49-68 | A `message` payload appends a bot message with the payload's id, or the time as fallback, and clears typing. A `typing` payload only sets typing. Other payloads and parse errors change nothing. |
| Chat.ChatInterface.ClearMessages | src/components/chat/ChatInterface.tsx:147-154 | The list is reset to the greeting alone, and nothing else changes. |
| Voice.CollectAppend | src/components/chat/VoiceRecorder.tsx:41-48 | Collecting distributes over concatenation of result lists. |
| Voice.CollectPartition | src/components/chat/VoiceRecorder.tsx:43-47 | Each result's transcript goes to exactly one of the two transcripts. |
| Voice.CollectOthers | src/components/chat/VoiceRecorder.tsx:43-47 | All-final results leave the interim transcript empty, and all-interim results leave the final one empty. |
| Voice.EarlierResultsIgnored | src/components/chat/VoiceRecorder.tsx:41 | Results before `resultIndex` do not affect the fold. |
| Voice.FoldResults | src/components/chat/VoiceRecorder.tsx:38-48 | The loop yields the concatenated final and interim transcripts of the results from `resultIndex` on, and none if the index is past the end. |
| Voice.VoiceRecorder.constructor | src/components/chat/VoiceRecorder.tsx:18-79 | The recorder is supported exactly when both recognition and synthesis exist. It starts not recording with an empty transcript. |
| Voice.VoiceRecorder.StartRecording | src/components/chat/VoiceRecorder.tsx:88-92 | The recognizer is started exactly when it exists and is not recording. |
| Voice.VoiceRecorder.StopRecording | src/components/chat/VoiceRecorder.tsx:94-98 | The recognizer is stopped exactly when it exists and is recording. |
| Voice.VoiceRecorder.OnStart | src/components/chat/VoiceRecorder.tsx:32-35 | Recording starts and the transcript is cleared. |
| Voice.VoiceRecorder.OnResult | src/components/chat/VoiceRecorder.tsx:37-55 | The shown transcript is the final one if non-empty and the interim one otherwise. The final one is emitted exactly when it is non-empty. |
| Voice.VoiceRecorder.OnError | src/components/chat/VoiceRecorder.tsx:57-65 | Recording stops. |
| Voice.VoiceRecorder.OnEnd | src/components/chat/VoiceRecorder.tsx:67-69 | Recording stops. |
| Voice.VoiceRecorder.Unmount | src/components/chat/VoiceRecorder.tsx:81-85 | The cleanup aborts the recognizer exactly when one exists. |
| Voice.VoiceRecorder.Remount | src/components/chat/VoiceRecorder.tsx:18-86 | A new `onTranscript` re-runs the effect: the old recognizer is aborted exactly when one exists, a new one is constructed exactly when supported, and recording flag and transcript survive. |

## Left out

- Transport.DisconnectCancelsTimer: "no timer pending after `disconnect()`" is proved only when the ref holds every pending timer, because the code cancels only that one. `Transport.DisconnectMayLeaveOrphanTimer` shows the other case.
- Transport.NoReconnectAfterDisconnect: proved from a single retry chain (`SingleTimer`), for runs with no further `connect()` call and only code-1000 closes. `Transport.NoReconnectAfterUnmount` shows that every mounted run without extra `connect()` calls meets the first condition. The close code is chosen by the socket and the server, so the model lets a close event carry any code.
- Transport.RetryChainBounded: the bound of five is proved for one retry chain, from an open socket and without extra `connect()` calls. Under such calls the counter is shared between chains, so no global bound on sockets holds.
- Socket `onerror` only logs, and it is left out along with every `console` call and toast.
- `JSON.stringify` and `JSON.parse` are not modelled. Outbound messages stay structured, and inbound data arrives as an already classified `Payload` (message, typing, other, or parse error).
- Inbound timestamps arrive as integers. An invalid `new Date(...)` is not modelled, and `isTyping` is taken as a boolean rather than an arbitrary JSON value.
- Elapsed time is not modelled. Timer delays are recorded but do not order events. The local replies, which all wait 1500 ms, fire in the order they were armed.
- A change of the hook's `url` or `enabled` re-runs the mount effect. The model treats that as a new hook.
- Message ids are not claimed unique, as they are not in the code (two sends in one millisecond share an id).
- `toLowerCase` handles ASCII letters, U+0130 and U+212A, which are the characters whose lower case contains an ASCII letter and so can affect a keyword match. All other characters are left unchanged.
- Voice.VoiceRecorder.Remount: which renders re-run the effect is not modelled, because the model has no notion of rendering; callers invoke it. The aborted recognizer's later error and end events are separate events, as for any other recognizer.
- `OtherPayload` stands for an inbound `type` other than "message" and "typing". The datatype does not forbid those two strings in `kind`; the handler ignores every `OtherPayload` whatever its `kind`.
- Only the first alternative of each speech result is modelled. The recognizer settings (`continuous`, `interimResults`, `lang`) are left out.
- `speakText`, rendering, auto-scroll, the message bubble, the typing indicator and the page and authentication components are not part of this model. The signed-in user is a parameter.
- `Math.pow` is computed on floating point in the code. The model uses exact integers, which agree for the exponents 0 to 4 that occur.
