# Breathing guide and chat controller, modelled in Dafny

This project models the two state machines inside a small pair of browser
widgets. The DOM, timers, network and speech engines are abstracted away.

**Heart-rate breathing guide** (`src/HeartRateBreathingApp.js`). The React
component holds a simulated heart rate, a breathing phase
(Prepare, Inhale, Hold, Exhale) and a running flag.
- `HeartRate` (heart_rate.dfy) holds the pure parts:
  - the random-walk step. It adds a variation from `Math.random() * 6 - 3`, clamps the sum to [60, 100] and applies `Math.round`;
  - the timing bands: below 70, [70, 85), and 85 or above;
  - the background-colour bands: 65, 75 and 85;
  - the phase badge styles.
- `BreathingCycle` (breathing_cycle.dfy) is the one-second tick closure as a pure function. Its cases are tried in the order of the source's `switch`. `Run` iterates the tick, and the lemmas give the closed-form schedule and the period.
- `BreathingGuide` (breathing_guide.dfy) is the component as a class. Each firing of an interval is an explicit call: `Tick` or `UpdateHeartRate(variation)`.
  - The timing and step counter that the interval closure captures are fields.
  - The timing is taken once, in `StartGuide`, and no tick or heart-rate update changes it. The cycle reset does not re-read the heart rate, so a running guide keeps the cadence it started with. Since `StopGuide` resets the rate to 70 and the rate only moves while running, every start captures the medium timing (4-1-4); the slow timing is never used. `TimingFixedWhileRunning` exhibits a run whose rate reaches the fast band while the cycle keeps the medium timing. This holds despite the component's own caption, which says the rhythm adjusts to the heart rate.

**Therapeutic chat controller** (`public/js/chatbot.js`). The `TherapeuticChatbot` class is modelled as the class `ChatSession.Session` (chat_session.dfy). Its fields are:
- the message list;
- the four flags `isListening`, `isProcessing`, `isSpeaking` and `voiceOutputEnabled`;
- the input field, the send button's disabled flag and the two button labels;
- the browser storage, as a map from key to message list.

What the controller does to the outside world is also recorded in fields: rendered messages, shown error notices, and the calls it makes on the recognition and synthesis engines.
- `handleSend` awaits a fetch, so it is split in two: `BeginSend` is the synchronous part and `CompleteSend(outcome)` is the settlement, with a reply or a failure. `HandleSend` composes the two for a send with nothing else in between.
- The class invariant `Valid` states four things:
  - the stored `chatHistory` is always the full conversation;
  - the conversation is never empty;
  - the send button is disabled exactly while a request is in flight;
  - while a request is in flight, the last message is the user's.
- `ChatText` (chat_text.dfy) models `String.prototype.trim` and the send gate built on it.

Two behaviours of the source as written are visible in the model:
- `Bootstrap` clears storage before building the controller. Any earlier history is therefore discarded, and every session starts with the greeting alone.
- The greeting is added through `addMessage`, which renders it. `loadMessages` then renders the whole list again. The constructor's contract shows that the rendered log is `[greeting, greeting]`.

## Model

| member | source | states |
|---|---|---|
| `HeartRate.Round` | src/HeartRateBreathingApp.js:15 | Math.round gives the integer within half a unit below or strictly less than half above its argument (halves round up) |
| `HeartRate.IsVariation` | src/HeartRateBreathingApp.js:13 | a variation is admissible exactly when it is `Math.random() * 6 - 3` for some random value in [0, 1), which makes the range [-3, 3) |
| `HeartRate.NextHeartRate` | src/HeartRateBreathingApp.js:11-17 | the next rate always lies in [60, 100]; from a rate in [60, 100] with a variation in [-3, 3) it moves by at most 3 either way |
| `HeartRate.NextHeartRateReaches` | src/HeartRateBreathingApp.js:13-15 | every rate in [60, 100] within 3 of the previous one is produced by some variation in [-3, 3), so the bounds above are exact |
| `HeartRate.BreathingTiming` | src/HeartRateBreathingApp.js:37-45 | every timing has hold 1, inhale equal to exhale, an inhale of 3 to 5 seconds, and no empty segment |
| `HeartRate.BreathingTimingBands` | src/HeartRateBreathingApp.js:37-45 | timing (5,1,5) exactly below 70, (4,1,4) exactly in [70, 85), (3,1,3) exactly at 85 or above |
| `HeartRate.BreathingTimingMonotone` | src/HeartRateBreathingApp.js:37-45 | a higher rate never gets a longer inhale or exhale |
| `HeartRate.BackgroundColor` | src/HeartRateBreathingApp.js:20-34 | blue exactly below 65, green exactly in [65, 75), yellow exactly in [75, 85), red exactly at 85 or above, for every integer rate |
| `HeartRate.BackgroundClass` | src/HeartRateBreathingApp.js:23-32 | every colour's class is a light `bg-…-100` background shade |
| `HeartRate.BackgroundColorMonotone` | src/HeartRateBreathingApp.js:20-34 | the background colour is defined for every integer rate, and a higher rate never gets a cooler colour (blue, green, yellow, red) |
| `HeartRate.BandsAgreeAtTheTop` | src/HeartRateBreathingApp.js:20-45 | red background exactly when the fast timing applies; blue implies the slow timing; at 69 and 74 the colour is green in both cases, but the timings differ (slow at 69, medium at 74) |
| `HeartRate.PhaseStyle` | src/HeartRateBreathingApp.js:96-107 | the gray default style is given exactly to Prepare, the phase without a case of its own |
| `HeartRate.PhaseStyleInjective` | src/HeartRateBreathingApp.js:96-107 | Inhale, Hold, Exhale and the gray default for Prepare are four different badge styles |
| `BreathingCycle.TickCycle` | src/HeartRateBreathingApp.js:52-69 | a tick either advances the step by one or resets it to 0, and it changes the phase only at step 0, inhale, inhale+hold or inhale+hold+exhale |
| `BreathingCycle.TickStaysInCycle` | src/HeartRateBreathingApp.js:52-69 | from any in-cycle state, a tick shows the phase its step belongs to, and it advances the step by one or wraps it to 0 after the Prepare tick. The state stays in the cycle: the step stays in [0, inhale+hold+exhale], with Prepare at step 0 |
| `BreathingCycle.RunAdds` | src/HeartRateBreathingApp.js:52-69 | a + b ticks are a ticks followed by b ticks |
| `BreathingCycle.RunLastTick` | src/HeartRateBreathingApp.js:52-69 | the state after n + 1 ticks is one tick after the state after n |
| `BreathingCycle.RunStaysInCycle` | src/HeartRateBreathingApp.js:53-68 | any number of ticks keeps the step in [0, inhale+hold+exhale] and the phase consistent with it |
| `BreathingCycle.FirstCycle` | src/HeartRateBreathingApp.js:53-68 | in the first cycle, tick n shows Inhale, Hold, Exhale or Prepare according to its step, and only the last tick resets the step to 0 |
| `BreathingCycle.CycleRepeats` | src/HeartRateBreathingApp.js:53-68 | a full cycle of inhale+hold+exhale+1 ticks returns to the start state, so the phase sequence is periodic with that period |
| `BreathingCycle.MediumSchedule` | src/HeartRateBreathingApp.js:52-69 | for timing (4,1,4): Inhale on ticks 0-3, Hold on 4, Exhale on 5-8, Prepare on 9 |
| `BreathingGuide.Guide.constructor` | src/HeartRateBreathingApp.js:4-6 | the guide starts at 70 bpm, in Prepare, not running |
| `BreathingGuide.Guide.StartGuide` | src/HeartRateBreathingApp.js:73-82 | a no-op when running; otherwise running, with the timing of the current rate captured and the step at 0. Because a stopped guide always shows 70, that timing is always the medium one |
| `BreathingGuide.Guide.StopGuide` | src/HeartRateBreathingApp.js:85-93 | a no-op when stopped; otherwise stopped, in Prepare, with the rate exactly 70 |
| `BreathingGuide.Guide.Tick` | src/HeartRateBreathingApp.js:52-69 | one tick of the captured timing: the new phase is that of the old step, and the step advances or wraps. The rate and the captured timing are unchanged, and the invariant ties the state to `Run` over the ticks since start |
| `BreathingGuide.Guide.UpdateHeartRate` | src/HeartRateBreathingApp.js:11-17 | the rate becomes the random-walk step of the old rate. It stays in [60, 100] and within 3 of the old rate |
| `BreathingGuide.TimingFixedWhileRunning` | src/HeartRateBreathingApp.js:48-69 | a run in which the rate climbs from 70 to 85 keeps the medium timing captured at start, while the current rate calls for the fast one |
| `ChatText.TrimStart` | public/js/chatbot.js:97 | drops only leading white space, leaving a suffix that is empty or starts with a non-space |
| `ChatText.TrimEnd` | public/js/chatbot.js:97 | drops only trailing white space, leaving a prefix that is empty or ends with a non-space |
| `ChatText.Trim` | public/js/chatbot.js:97 | the trimmed text is empty or starts and ends with a non-space |
| `ChatText.TrimRemovesOnlyEnds` | public/js/chatbot.js:97 | the trimmed text is the infix of the input enclosed by an all-white-space prefix and an all-white-space suffix, so only the ends are removed |
| `ChatText.TrimEmptyIffBlank` | public/js/chatbot.js:97-98 | the trimmed input is empty exactly when the input is all white space |
| `ChatText.TrimIdempotent` | public/js/chatbot.js:97 | trimming twice is trimming once |
| `ChatText.AcceptsSend` | public/js/chatbot.js:97-98 | the send gate (trimmed input non-empty, nothing in flight) holds exactly when nothing is in flight and the input holds a non-space character |
| `ChatSession.Greeting` | public/js/chatbot.js:46-50 | the greeting is a bot message with the canned text, stamped with the current clock reading |
| `ChatSession.VoiceOutputLabel` | public/js/chatbot.js:234-235 | "Disable Voice Output" exactly when voice output is on, "Enable Voice Output" exactly when off |
| `ChatSession.VoiceInputLabel` | public/js/chatbot.js:254-257 | "Stop Listening" exactly while listening, "Start Voice Input" exactly when not |
| `ChatSession.SpeechCalls` | public/js/chatbot.js:238-252 | speaking issues a cancel exactly when an utterance is in progress, and always ends with the new utterance |
| `ChatSession.Session.constructor` | public/js/chatbot.js:2-52 | reads the stored history, or an empty one when the key is missing. An empty history gets the greeting, which is stored and rendered twice; otherwise the history is kept and rendered once. All flags start false |
| `ChatSession.Session.SaveMessages` | public/js/chatbot.js:279-281 | the stored `chatHistory` becomes the full message list, and other keys are untouched |
| `ChatSession.Session.AddMessage` | public/js/chatbot.js:178-183 | the message is appended at the end, earlier messages are unchanged, the stored history equals the new list, and the message is rendered |
| `ChatSession.Session.LoadMessages` | public/js/chatbot.js:283-286 | every message is rendered, in order |
| `ChatSession.Session.BeginSend` | public/js/chatbot.js:96-111 | accepted exactly when the trimmed input is non-empty and nothing is in flight. When rejected, nothing changes. When accepted: a request is in flight, the button is disabled, the field is cleared, and exactly one user message with the trimmed text is appended |
| `ChatSession.Session.CompleteSend` | public/js/chatbot.js:113-142 | a reply appends exactly one bot message right after the user's, and is spoken if voice output is on. A failure shows the notice and keeps the user message without a bot message. Either way the flag ends false and the button is enabled |
| `ChatSession.Session.HandleSend` | public/js/chatbot.js:96-143 | an accepted send clears the input, appends the user message and then the bot message on a reply, to the list, the rendered page and the stored history alike, and ends with nothing in flight. A failure adds the failure notice, and a reply with voice output on is spoken. Listening, speaking, voice output, both labels and recognition calls are unchanged. A rejected send changes nothing |
| `ChatSession.Session.ToggleVoiceInput` | public/js/chatbot.js:219-230 | without recognition, only the unsupported notice; otherwise stop when listening and start when not |
| `ChatSession.Session.ToggleVoiceOutput` | public/js/chatbot.js:232-236 | flips the preference, and the label matches the new value |
| `ChatSession.Session.SpeakMessage` | public/js/chatbot.js:238-252 | the engine receives the calls of `SpeechCalls` for the current speaking flag |
| `ChatSession.Session.OnUtteranceStart` | public/js/chatbot.js:245-247 | speaking becomes true |
| `ChatSession.Session.OnUtteranceEnd` | public/js/chatbot.js:248-250 | speaking becomes false |
| `ChatSession.Session.OnRecognitionStart` | public/js/chatbot.js:72-75 | listening becomes true and the voice button reads "Stop Listening" |
| `ChatSession.Session.OnRecognitionEnd` | public/js/chatbot.js:77-80 | listening becomes false and the voice button reads "Start Voice Input" |
| `ChatSession.Session.OnRecognitionError` | public/js/chatbot.js:88-93 | the voice-error notice is shown, listening becomes false, and the label follows |
| `ChatSession.Session.OnRecognitionResult` | public/js/chatbot.js:82-86 | the transcript becomes the input and goes through the same send gate as typed text. When accepted, its trimmed text is appended, rendered and stored and the input cleared. When rejected, the transcript stays in the input and nothing is rendered or stored. Voice flags, labels, notices and recognition and synthesis calls are unchanged |
| `ChatSession.Bootstrap` | public/js/chatbot.js:293-297 | whatever was stored before, the new session holds exactly one message, the bot greeting. Storage holds only that, the greeting is rendered twice, and all flags are false |
| `ChatSession.Reload` | public/js/chatbot.js:2-22 | building a controller from storage written by a session reproduces its conversation in order |
| `ChatSession.ToggleVoiceOutputTwice` | public/js/chatbot.js:232-236 | toggling voice output twice restores the preference from any state and leaves the label matching it; the label is restored as well whenever it already matched the preference (not only after the page's own label was replaced) |

## Left out

- Rendering is left out: JSX, the DOM elements of message bubbles, class names on bubbles, the typing indicator, scrolling and input focus. Only the order in which messages are rendered is kept.
- Error notices are recorded by their text. The close button and the 5-second removal timer are not modelled.
- The fetch to `/api/chat` is left out: its request body, the hard-coded sampling parameters and the parsing of `choices[0].message.content`. The model sees only its outcome, a reply text or a failure.
- Stored messages are kept as values. JSON serialisation is not modelled, including the conversion of `Date` timestamps to strings. Timestamps are a clock reading passed in as `now`.
- The speech engines themselves are left out. The model records the start/stop and cancel/speak calls made on them, and their callbacks are explicit methods. An absent `speechSynthesis` object is not modelled.
- `updateVoiceButton` also toggles the button's colour classes; only its label is modelled.
- Scheduling is left out: `setInterval`/`clearInterval`, React state batching and refs. Each timer firing is a call, and `Tick` and `UpdateHeartRate` require the guide to be running, since their intervals exist only then.
- `Math.random` becomes the `variation` parameter. Its range [-3, 3) is stated by `IsVariation`. Reals stand in for the floating-point sum, so rounding error in the addition is not modelled.
- `Session.constructor`: the send button's initial enabled state and the labels before the first update come from the page markup; the model starts the button enabled and takes the labels as a `Page` parameter.
- `ChatText.IsWhiteSpace` is an explicit list of the white-space and line-terminator characters that `trim` removes. It does not consult the Unicode database.
- Console logging is left out: the `console.error` calls in the recognition error handler and in the failed-send path write only to the developer console.
- `Session.AddMessage`: saving is assumed never to fail. In the source a throwing `localStorage.setItem` (storage quota exceeded) inside the send's `try` would leave the user message in the list but neither stored nor rendered. The send would then show "Failed to get response" and skip the request. The model does not capture that path.
- `src/App.js` is a layout wrapper with no logic and is not part of this model.
