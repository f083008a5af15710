# MindEase: the conversation, mood and voice state machines, in Dafny

MindEase is a chat-and-voice wellness companion. A browser client sends each
message to a small server. The server scores the message's sentiment, asks a
chat-completion provider for a reply, and returns `{reply, moodScore}`. The
client appends the reply to the transcript and the score to a mood log. The
log sets the page's background colour, is drawn as a chart, and is kept in
local storage across reloads. A voice widget fetches a token from the server
and joins a real-time audio room.

This project models the parts of that system that are rules rather than
rendering:

- `wrappers.dfy` (`Wrappers`): an `Option` type. `None` stands for JavaScript's `undefined`.
- `json.dfy` (`JsonValues`): parsed JSON values and the JavaScript operators the
  code applies to them. These are truthiness, `v?.key`, `v?.[0]` and the
  `a || b || c` chain.
- `server.dfy` (`Server`): the `/chat` and `/agora-token` handlers, as pure
  functions from request to response. The sentiment scorer, the completion
  provider, the environment, the clock and the token builder are parameters.
  Each handler also returns what it asked of the outside world. For `/chat`
  that is the completion request it sent. For `/agora-token` it is the
  environment variables read and the builder's arguments.
- `mood.dfy` (`Mood`): mood samples, the background theme, and writing the
  log to storage and reading it back.
- `conversation.dfy` (`Conversation`): the `App` component's state, as the
  class `Session`. Its methods are proved against pure functions (`Send`,
  `Begin`, `Settle`), and lemmas cover whole sequences of user actions.
- `voice.dfy` (`Voice`): the voice widget, as the class `VoiceRoom`. Its methods
  are proved against `Join` and `Leave`. Every SDK step is an input that
  succeeds or fails, and the calls the widget makes are recorded in order.
- `chart.dfy` (`MoodChart`): the mapping from the log to chart points, and the
  empty-data placeholder.

Behaviour of the code that the model keeps as it is:

- The theme thresholds are strict (`> 2`, `< -2`), so a mood of exactly 2 or -2 gives the neutral purple.
- The client's failure text is "Sorry, server error. Try again later.". The server's 500 reply is "Server error", with no full stop.
- The `moodHistory` initialiser keeps any truthy stored JSON value, not only arrays. See Findings.
- The widget has no mute control.
- `leaveChannel` keeps `localTrack`.
- A `joinChannel` that fails halfway neither releases the microphone track nor leaves the room.
- `joinChannel` has no guard against a second join while joined. The UI shows only one button, so only the join button can start one.

## Model

| member | source | states |
|---|---|---|
| `JsonValues.Lookup` | server/index.js:41-42 | A property read on a parsed object finds the key exactly when some field has it, and returns the value of the last such field. |
| `JsonValues.IndexZero` | server/index.js:41 | `?.[0]` yields an array's first element, and `undefined` for an empty array or an undefined value. |
| `JsonValues.FirstTruthy` | server/index.js:40-43 | `a \|\| b \|\| fallback` yields the first truthy candidate, or the fallback when none is truthy. |
| `JsonValues.FirstTruthyIsTruthy` | server/index.js:40-43 | A truthy fallback makes the whole chain truthy, whatever the candidates. |
| `Server.UserText` | server/index.js:19 | An absent message is scored and sent as the empty string. A present message is used unchanged. |
| `Server.Prompt` | server/index.js:28-34 | The completion request has exactly two turns, the fixed system persona and then the user's text, so no history is sent. It names the model "gpt-4o-mini". |
| `Server.ReplyOf` | server/index.js:40-43 | The reply is `choices[0].message.content` if truthy, else `error.message` if truthy, else the fixed fallback text. It is never falsy. |
| `Server.ChatBody` | server/index.js:45 | The response body carries the reply under "reply" and the score under "moodScore". |
| `Server.ChatHandler` | server/index.js:17-51 | The provider gets the prompt built from the user's text. An exception gives 500 with `{reply: "Server error", moodScore: 0}`. Otherwise the status is 200, the body has the extracted reply, and the score is the sentiment of the user's text. |
| `Server.ChatMoodIgnoresReply` | server/index.js:19-20 | Two providers that answer differently give the same moodScore in a 200: the score of the user's text, never of the reply. The reply field is truthy. |
| `Server.Expiry` | server/index.js:67-69 | The expiry is 3600 seconds after the start of the current second: `(ts-3600)*1000 <= nowMs < (ts-3600+1)*1000`, which is `floor(nowMs/1000) + 3600`. |
| `Server.ExpiryMonotone` | server/index.js:67-69 | Later requests never get an earlier expiry. Requests in the same second get the same expiry, and requests a second or more apart get different ones. |
| `Server.TokenBody` | server/index.js:75 | The token is under "token". "appId" is present exactly when the app id is set. |
| `Server.TokenHandler` | server/index.js:55-80 | The status is 400 exactly when the channel is missing or empty, and then no environment variable is read, the builder is not called, and the body is the fixed 400 error. Otherwise the app id and the certificate are read, in that order. The builder gets (appId, certificate, channel, uid 0, PUBLISHER, expiry). A builder exception gives 500 with the fixed error, and success gives 200 with `{token, appId}`. |
| `Mood.Background` | client/src/App.jsx:66-73 | The background is green iff the last mood is > 2, blue iff < -2, and purple iff it lies in [-2, 2]. An empty log or a missing mood counts as 0. |
| `Mood.BackgroundOfNewest` | client/src/App.jsx:67 | Only the newest sample decides the theme. The empty log and a sample without a mood give purple. |
| `Mood.DecodeEncodeSample` | client/src/App.jsx:49 | A sample written as JSON (with an undefined mood left out) decodes back to the same sample. |
| `Mood.DecodeAll` | client/src/App.jsx:15 | A stored array decodes exactly when every item is a sample. It then decodes to a log of the same length whose i-th sample is the decoding of the i-th item. |
| `Mood.DecodeEncodeAll` | client/src/App.jsx:24 | Decoding the encoded items of a log gives back the same log, in order. |
| `Mood.DecodeEncodeHistory` | client/src/App.jsx:15-24 | Decoding the array written for a log gives back that log. |
| `Mood.SeedHistory` | client/src/App.jsx:13-19 | The initialiser as written. The result is always truthy. An absent entry, a parse exception or a falsy value gives `[]`, and any truthy parsed value is kept as it is. |
| `Mood.SeedKeepsNonArray` | client/src/App.jsx:15 | A stored "5" (parsing to the number 5) is kept as the log, although it is not an array of samples. |
| `Mood.LoadHistory` | client/src/App.jsx:13-19 | The corrected initialiser gives the stored log when it parses to an array of samples, and `[]` otherwise (absent, unparsable, or any other value). It never fails. |
| `Mood.ReloadRestores` | client/src/App.jsx:23-25 | If parsing the text the persistence effect wrote gives back the written array, loading it gives back the same ordered log. |
| `Conversation.TrimStartDropsLeadingWhitespace` | client/src/App.jsx:32 | The result is a suffix of the input that does not start with whitespace, and every removed character is whitespace. |
| `Conversation.TrimEndDropsTrailingWhitespace` | client/src/App.jsx:32 | The result is a prefix of the input that does not end with whitespace, and every removed character is whitespace. |
| `Conversation.BlankIffAllWhitespace` | client/src/App.jsx:32 | `!input.trim()` holds exactly when every character of the input is whitespace. |
| `Conversation.Send` | client/src/App.jsx:31-64 | A blank input changes nothing. Otherwise the earlier transcript is kept, and exactly one user message with the untrimmed input is appended, then one AI message. The input is cleared and `loading` ends false. A reply appends its text and exactly one sample `{mood: moodScore, time: now}`. A failure appends "Sorry, server error. Try again later." and leaves the log unchanged. |
| `Conversation.RunOnlyAppends` | client/src/App.jsx:34-60 | After any sequence of typing and sending, the earlier transcript and the earlier mood log are prefixes of the new ones. |
| `Conversation.RunCountsTurns` | client/src/App.jsx:31-64 | After any sequence of actions, the transcript has grown by exactly two messages per send on a non-blank input. The mood log has grown by at most one sample per such send. A session that starts idle ends idle. |
| `Conversation.StepCountsTurn` | client/src/App.jsx:32-63 | A single send on a non-blank input adds two messages and at most one sample. Typing and blank sends add neither, and no action leaves an idle session loading. |
| `Conversation.GreetingStaysFirst` | client/src/App.jsx:8-10 | From page load, the greeting stays the first message after any actions. |
| `Conversation.ReloadSeesCurrentLog` | client/src/App.jsx:23-25 | In a valid session, storage holds the current log. If parsing that text gives back the written array, a reload reads exactly `moodHistory`. |
| `Conversation.Session.constructor` | client/src/App.jsx:8-25 | At mount: one greeting, an empty input, not loading, the log loaded from storage, and that log written back. |
| `Conversation.Session.Edit` | client/src/App.jsx:134 | Typing sets the input and nothing else. |
| `Conversation.Session.BeginTurn` | client/src/App.jsx:32-36 | It starts a turn exactly when the input is not blank. The user message is appended, the input cleared and `loading` set. A blank input changes nothing. |
| `Conversation.Session.SettleTurn` | client/src/App.jsx:38-63 | The state becomes `Settle` of the old state: the reply, or the apology, is appended. A sample is appended and written to storage only on a reply. `loading` is cleared. |
| `Conversation.Session.SendMessage` | client/src/App.jsx:31-64 | The state becomes `Send` of the old state, and storage still holds the log. |
| `Voice.Join` | client/src/components/VoiceRoom.jsx:11-27 | The first call always requests a token for "mindease_room". Each step runs only if every earlier step succeeded, and the attempt stops at the first failure. `joined` becomes true only if all four steps succeed, and then the track is the published one. On any failure, `joined` and `localTrack` keep their values and one alert is raised. |
| `Voice.Leave` | client/src/components/VoiceRoom.jsx:29-38 | `client.leave` is called first. Only if it succeeds is the track stopped, then closed, and `joined` cleared. A failed leave changes nothing else. `localTrack` is never cleared. |
| `Voice.ControlFor` | client/src/components/VoiceRoom.jsx:47-61 | The join button is shown iff not joined, and the leave button iff joined. |
| `Voice.ClickInvariants` | client/src/components/VoiceRoom.jsx:11-38 | Over any clicks on the shown button: while joined there is a track, there are never more alerts than token requests, and the call record only grows. |
| `Voice.JoinUsesIssuedToken` | client/src/components/VoiceRoom.jsx:12-17 | The fixed channel always passes the server's validation. On a 200, `client.join` gets the server's app id and the builder's token for that channel. |
| `Voice.VoiceRoom.constructor` | client/src/components/VoiceRoom.jsx:8-9 | The widget starts not joined and without a track. |
| `Voice.VoiceRoom.JoinChannel` | client/src/components/VoiceRoom.jsx:11-27 | The widget's state becomes `Join` of the old state. |
| `Voice.VoiceRoom.LeaveChannel` | client/src/components/VoiceRoom.jsx:29-38 | The widget's state becomes `Leave` of the old state. |
| `MoodChart.PointsFrom` | client/src/components/MoodChart.jsx:11-14 | There is one point per sample, in order. The i-th point is numbered first + i and carries the i-th sample's mood. |
| `MoodChart.Formatted` | client/src/components/MoodChart.jsx:11-14 | `formatted` has the same length and order as the log. Point i has x = i + 1 and the sample's mood. The timestamp is dropped. |
| `MoodChart.FormattedAxis` | client/src/components/MoodChart.jsx:12 | The x values lie in 1..n and strictly increase. |
| `MoodChart.View` | client/src/components/MoodChart.jsx:20-21 | The placeholder appears exactly when the log is empty. Otherwise the chart of the formatted points is shown. |

## Left out

- Network I/O is not modelled: the axios calls, `node-fetch` and the OpenAI transport. The provider's answer, the `/chat` outcome seen by the client and the token fetch are inputs.
- The sentiment lexicon and `RtcTokenBuilder` signing are function parameters, because they are foreign libraries.
- The Agora SDK is reduced to whether each step succeeds. This includes `client.join`, the microphone track, `publish`, `leave`, `stop` and `close`. The module-level client's own connection state is not modelled. So the model does not show that a join failing after `client.join` leaves the SDK connected while `joined` is false.
- `stop()` and `close()` on the track are taken not to throw.
- `localStorage` is an optional string. `JSON.parse` and `JSON.stringify` are parameters. The only fact used about them is that parsing the text written for a mood log gives back the array written. A general round trip is not assumed, because `JSON.parse` collapses repeated keys, reorders integer-like keys and rounds large integers.
- JavaScript numbers are integers here. NaN and fractions are not modelled.
- A non-string `message` body or a repeated `channel` query parameter is not modelled.
- Speech synthesis is left out, because it is a browser capability. It runs inside the `try` after the reply and the sample are appended, so a speech exception would also append the apology. The model does not capture that.
- `Date` and `toISOString` become the `now` input.
- Scrolling, animation, JSX, styling and the recharts configuration are presentation.
- `client/src/components/Avatar.jsx` is not part of this model. It is a colour/emoji picker that nothing here uses.
- Console logging, `alert()` display and Express setup (CORS, `dotenv`, the listen port) are server and UI plumbing. Alerts are recorded as strings.
- Overlapping submissions and stale responses are not modelled. `Send` and the action sequences treat each turn as atomic. The class separates `BeginTurn` and `SettleTurn`, but the lemmas assume turns happen one at a time.
- React's functional state updates and batching become direct assignment. For sequential turns the result is the same.
- `Conversation.Session.constructor` uses the corrected initialiser `Mood.LoadHistory`, not the as-written `Mood.SeedHistory`. A stored truthy non-array value therefore starts the session with an empty log instead of crashing the first render. See Findings.
- `Conversation.Session.constructor` also empties a stored array that has an item other than `{mood?: integer, time: string}`, such as `[{"mood":3}]`. The code keeps such an array: it themes the page by its last `mood` and charts it. The model carries only well-formed samples, so it does not capture a log of loose objects.

## Findings

| source | as written | input that shows it | evidently intended | confidence | as-written member | corrected member |
|---|---|---|---|---|---|---|
| client/src/App.jsx:15 | `JSON.parse(stored) \|\| []` keeps any truthy parsed value as the mood log. App's own render then fails on it. For a number, `true` or an object, `moodHistory.at(-1)` in `backgroundGradient` (App.jsx:67) throws because there is no `at` method. For a string, `at(-1)` works, and then MoodChart's `data.map` throws. | the stored text `5` (likewise `true`, `"x"` or `{}`) | Start with the stored log only when it is an array of samples, and with `[]` otherwise | not executed; follows from JavaScript semantics of `\|\|`, `at` and `map` | `Mood.SeedKeepsNonArray` | `Mood.LoadHistory` |
