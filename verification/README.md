# Live interview page: turn sequencing

This is a Dafny model of the engine behind the live interview page of an
interview-assistant web application (`static/script.js`). The interviewer
records one conversational turn at a time. The page then:

- pushes each turn's audio onto a queue;
- sends the queued turns to the analysis server one at a time;
- appends each reply to a history;
- keeps a status line saying what is happening.

The model covers:

- the evaluator keypoints;
- the start / request-analysis button and the end button;
- the recorder's `stop` events;
- the drain loop `processAudioQueue`;
- `updateStatus`;
- the session reset done by the resume-analysis button.

## How it is modelled

The page's shared variables are one immutable `Interview.Session` record. The
page runs in one event loop, so each handler runs to completion. Each
`async` function is cut at its `await` and callback boundaries. Every piece
that runs without interruption is a pure transition, and `Interview.Step`
dispatches an `Interview.Event` to its transition.

The environment chooses when events happen: clicks, `getUserMedia`
settling, recorder `stop` events, `setTimeout` callbacks and server
replies. An event that cannot happen in the current state leaves it
unchanged. Audio is an opaque byte string; only whether it is empty
matters. A server reply is `Some(reply)`; a failure (network error,
non-2xx status, or an `error` field) is `None`.

The record also holds bookkeeping the page never stores, so that no
turn can be lost unnoticed:

- a number for every pushed segment;
- the requests still in flight;
- pending timers and pending microphone and resume requests;
- counts of failed and cleared segments;
- the handlers of replaced recorders whose `stop` event is still on its way.

The modules are:

- `Keypoints`: the keypoint list (add with JavaScript `trim`; remove with `splice`).
- `Interview`: the data model and the transitions.
- `Invariants`: what every reachable state satisfies.
- `Worker`: the drain loop seen as rounds of reply-then-drain.
- `Lifecycle`: recording hand-over, the end of the interview, and the races.
- `Status`: `updateStatus` as a structured status, its Korean rendering, a
  parser proved to invert the rendering, and what its numbers mean.
- `Corrections`: the corrected transitions for the findings below.

These behaviours of the code are modelled as written:

- **Reset.** The resume-analysis reset does not clear `isAnalyzing`, so a
  reply already in flight lands in the new session.
- **Turn number while recording.** It counts every turn submitted so far.
  A failed analysis therefore lowers it by one: the failed segment never
  becomes a turn, and `Status.RecordingTurnAfterReply` shows the drop.
  This is the displayed number behaving as coded, not a lost turn.
- **Replaced recorder.** `getUserMedia` settling replaces the recorder
  without stopping the old one. A `stop` event still pending on the old
  recorder runs its handler against the new one. That handler's call to
  `start()` on a recorder that is already recording throws, so the rest of
  the handler is skipped.

## Model

| member | source | states |
|---|---|---|
| Keypoints.Add | static/script.js:77-84 | The trimmed input is appended exactly when it is not blank and not already present, and the list is otherwise unchanged. The list keeps no duplicates. |
| Keypoints.Remove | static/script.js:69-72 | `splice(index, 1)` removes exactly the element at `index`, shifting the rest. An index past the end leaves the list unchanged. No duplicates appear, and the removed topic is gone. |
| Keypoints.Trim | static/script.js:78 | The result starts right after the leading white space and leaves only white space behind it. It neither starts nor ends with white space. It is empty exactly when the input is all white space, using the white-space set of JavaScript `trim`. |
| Keypoints.TrimIdempotent | static/script.js:78 | Trimming an already trimmed value changes nothing. |
| Keypoints.AddTwiceIsAddOnce | static/script.js:77-84 | Pressing add twice with the same text has the effect of pressing it once. |
| Interview.Drain | static/script.js:295-302 | With the worker idle and a non-empty queue, the worker becomes busy and the head of the queue goes in flight. Otherwise nothing changes. No segment is lost or reordered. |
| Interview.Submit | static/script.js:219-223 | A non-empty blob becomes the next numbered segment at the end of the pending work, and the worker is busy afterwards. An empty blob changes nothing. |
| Interview.RunOnStop | static/script.js:218-228 | The installed handler pushes the audio and then uninstalls itself. Recording resumes exactly when the analysis handler runs before the end. History, end flag and counters are untouched. |
| Interview.RequestAnalysis | static/script.js:211-233 | Without a recorder or while not recording, nothing changes. Otherwise the analysis handler is installed, the recorder is stopped with its `stop` event pending, and `isRecording` is cleared. |
| Interview.StartInterview | static/script.js:179-183 | Without an analysed resume nothing happens. Otherwise one microphone request is made. |
| Interview.MicGranted | static/script.js:185-190 | The new recorder replaces the old one and records, with `interviewEnded` not consulted. A handler still owed by the old recorder's pending `stop` is kept. Nothing else changes. |
| Interview.OrphanFired | static/script.js:240-250 | A replaced recorder's late handler pushes its audio like any handler, acting on the current recorder through the page's variables. The analysis handler resumes recording only if the current recorder is idle and the interview is not over. The final handler stops the current recorder. |
| Interview.EndInterview | static/script.js:235-258 | Without a recorder, or once ended, nothing happens. Otherwise the interview is ended and recording cleared. A recording recorder is stopped, with the final handler waiting for its `stop`. Any other recorder has the final handler run at once on the buffered audio. |
| Interview.StopEvent | static/script.js:218-228 | A pending `stop` runs whichever handler is installed at that moment and leaves no handler and no pending stop. Recording resumes exactly when that handler is the analysis handler and the interview is not over. |
| Interview.ReplyArrived | static/script.js:313-358 | A success appends the reply for the in-flight segment and raises the turn count by one. A failure drops that segment and counts it. Either way the busy flag is cleared, one drain is scheduled, and the recorder side is untouched. |
| Interview.ResetSession | static/script.js:118-124 | The queue, history, count, end flag and recording flag are cleared. The thrown-away segments are counted. The busy flag, the in-flight request and the recorder are kept. |
| Invariants.RunKeepsInv | static/script.js:33-40 | Any trace of events keeps the invariant. Keypoints stay distinct; the busy flag means exactly one request in flight. The turn count equals the history length, and every push is held in order, failed, or cleared by a reset. Queued work with an idle worker has a drain scheduled. |
| Invariants.AtMostOneInFlight | static/script.js:295-300 | In every reachable state at most one analysis request is in flight, and it is in flight exactly while `isAnalyzing` is set. |
| Invariants.ReachableAccounted | static/script.js:322-323 | In every reachable state `totalAnalyzedCount` equals the history length. What the page holds is in push order, and every push is held, failed, or cleared. |
| Invariants.HistoryAppendOnly | static/script.js:322 | Between resets an event appends at most one turn to the history and never changes earlier turns. A new turn answers the segment that was in flight. |
| Worker.RoundAdvances | static/script.js:354-357 | One reply then the scheduled drain: the in-flight segment becomes a turn or a failure, and the next queued segment, if any, goes in flight. The recorder side is untouched. |
| Worker.SettleDrainsInOrder | static/script.js:295-358 | Whatever the server answers, a busy worker empties its backlog. The history gains exactly the successful segments in push order, which is the reference definition `Successes`. |
| Worker.SettleCounts | static/script.js:322-323 | Over the rounds, each failure is counted once and each success raises `totalAnalyzedCount` by one. |
| Worker.FailureDropsOnlyItsSegment | static/script.js:347-357 | With replies success, failure, success to three segments, the history gains the first and third turns only, and one failure is counted. |
| Worker.AllSucceedKeepsEverySegment | static/script.js:322 | When every request succeeds, each segment gets its own turn in the same position. |
| Lifecycle.RequestAnalysisHandsOverTurn | static/script.js:211-233 | Requesting analysis and then the `stop` event pushes the turn's audio, if any, as the next segment. Recording resumes on the same recorder, and the history is unchanged. |
| Lifecycle.EndIsIdempotent | static/script.js:236 | Ending twice is ending once, whatever audio the second call would flush. |
| Lifecycle.EndedIgnoresButtons | static/script.js:167 | Once ended, the start and end buttons do nothing. |
| Lifecycle.EndedStaysEnded | static/script.js:235-238 | After the end, every event but a reset keeps the interview ended. Only a late `getUserMedia` can turn recording back on. |
| Lifecycle.EndedFlushesOnlyWhatIsOwed | static/script.js:240-258 | After the end and until a reset, the segments still pushed are at most the handlers owed at the end: the final handler and those of replaced recorders. |
| Lifecycle.EndDuringPendingStop | static/script.js:252-257 | Ending while an analysis `stop` is pending runs the final handler at once on the buffered audio. The late `stop` finds no handler, so the turn's audio is never pushed and recording does not resume. |
| Lifecycle.ReplacedRecorderStillSubmits | static/script.js:185-190 | A microphone opening while an analysis `stop` is pending replaces the recorder. The old `stop` still pushes that turn, and the new recorder keeps recording. |
| Lifecycle.StaleReplyCrossesReset | static/script.js:118-124 | A reply in flight at the reset becomes the first turn of the new session, answering audio recorded before the reset. |
| Lifecycle.MicGrantAfterEndRecords | static/script.js:179-190 | There is a trace, using only buttons the page shows, where the interview ends before the microphone opens. The page is then ended and recording. |
| Status.Project | static/script.js:267-292 | The status kind follows the override, ended, recording, busy and queue tests in that order (each one an if-and-only-if). The recording number counts every submitted turn plus one. The analysis and preparation numbers count answered turns plus one. "Finishing" appears exactly when work remains. |
| Status.ParseRender | static/script.js:275-291 | Every non-override line reads back as the status it was rendered from, so no two statuses share a line. |
| Status.UpdateStatusReadsBack | static/script.js:267-292 | The text `updateStatus` writes, read back, is the status the session projects to. |
| Status.DecimalRoundTrip | static/script.js:280 | A number printed by a template literal reads back as that number. |
| Status.RecordingTurnIsItsPlace | static/script.js:273-280 | The number shown while recording is the history position of the turn being recorded, once its analysis is requested and every pending request succeeds. |
| Status.AnalyzingTurnIsItsPlace | static/script.js:281-285 | The number shown during an analysis is the history position its reply takes. |
| Status.PreparingTurnIsItsPlace | static/script.js:286-287 | The number shown while a segment waits is the history position its reply takes after the scheduled drain. |
| Status.RecordingTurnAfterReply | static/script.js:273-280 | While recording, a failed analysis lowers the shown turn number by one. A success, and the drain after either, leave it unchanged. |
| Corrections.ResetRetiring | static/script.js:118-124 | The corrected reset leaves nothing tracked and the worker idle. It keeps the push numbering and counts everything retired. Otherwise it equals the as-written reset. |
| Corrections.RetiredRequestsNeverAnswer | static/script.js:118-124 | With the corrected reset, until the next reset, every turn in the history answers audio pushed after the reset. |
| Corrections.MicGrantedChecked | static/script.js:185-190 | After the end, a microphone grant only consumes its request. Before the end it behaves like `Interview.MicGranted`. |
| Corrections.CheckedEndStopsRecording | static/script.js:185-190 | With the corrections, an ended interview is never recording, along any trace. |
| Corrections.StepCheckedKeepsInv | static/script.js:33-40 | The corrected transitions keep the page's invariant. |
| Corrections.EndAwaitingStop | static/script.js:252-257 | The corrected end with an analysis `stop` pending installs the final handler and waits. Nothing is pushed yet. Otherwise it equals `Interview.EndInterview`. |
| Corrections.CorrectedEndKeepsPendingTurn | static/script.js:252-257 | With the corrected end, the late `stop` pushes the turn's audio, and recording does not resume. |
| Corrections.CorrectedEndDuringPendingStop | static/script.js:252-257 | The scenario of `Lifecycle.EndDuringPendingStop` under the corrections: the turn's audio is pushed. |

## Findings

| source | as written | input that shows it | evidently intended | confidence | as-written member | corrected member |
|---|---|---|---|---|---|---|
| static/script.js:118-124 | The resume-analysis reset clears the queue and history but not `isAnalyzing`. The request in flight stays live. | A reset while an analysis is in flight, then that request's reply. The reply becomes turn 1 of the new session. | Requests of the old session are retired, and their replies never enter the new history. | high (not executed) | Lifecycle.StaleReplyCrossesReset | Corrections.RetiredRequestsNeverAnswer |
| static/script.js:185-190 | After `getUserMedia` resolves, the recorder is created and started without checking `interviewEnded`. | `Lifecycle.MicRaceTrace`: a resume re-analysis while an analysis `stop` is pending, start, end, then the microphone opens. The page is ended and recording. | A microphone that opens after the end is released and not recorded. | medium (not executed) | Lifecycle.MicGrantAfterEndRecords | Corrections.CheckedEndStopsRecording |
| static/script.js:252-257 | When the recorder is not recording, the final handler runs at once and replaces a pending analysis handler. | Request analysis, click end before the `stop` event, then the `stop` event. `start()` has no timeslice, so nothing is buffered before the event, and the turn is lost. | The final handler waits for the pending `stop` and pushes that turn's audio. | medium (not executed) | Lifecycle.EndDuringPendingStop | Corrections.CorrectedEndKeepsPendingTurn |

## Left out

- Interview.Step: StartClick, EndClick and AnalyzeResume are accepted in states where the page has disabled or hidden the button (`startLiveBtn.disabled`, the end button's `display`, lines 118, 132, 134, 214, 262-263). The model is therefore more permissive than the page, and every invariant still holds.
- Interview.ResetSession: the `resumeFile` and API-key guards of the resume-analysis button (lines 112-116) are not modelled. The reset is taken to pass them.
- Status.Decimal: `totalAnalyzedCount` is a JavaScript number. From 1e21 upwards a template literal prints it in exponent form, which the model ignores. The model prints every natural number in decimal.
- Keypoints.Trim: Dafny strings are sequences of Unicode scalar values, not UTF-16 code units, so lone surrogates are not modelled. `includes` is sequence membership.
- Interview.MicGranted: a replaced recorder keeps capturing and its microphone tracks are never released. The model records only its pending `stop` handler.
- Interview.ReplyArrived: an exception thrown while rendering a successful reply (after the history push, line 338) shows an error card but still counts as a success. The model treats every reply that passes the `ok` and `error` checks as a success.
- Interview.EndInterview: the audio passed to an immediately run final handler, and the audio of a `stop` event, are chosen freely. They are not derived from `currentAudioChunks` and `dataavailable` events.
- Interview.OrphanFired: after a replaced recorder's final handler stops the current recorder's tracks, a later `start()` on that recorder is assumed to succeed. Several pending stops of one recorder are merged into one.
- Rendering of the transcript, the score and the button colours, and `BUTTON_COLORS` randomness, are out of scope: they do not affect the turn sequencing.
- The `fetch`/`FormData`/JSON encoding of requests, and the resume-analysis request body, are left out. Replies are abstract values.
- The API-key modal, PDF file handling and drag-and-drop are left out: they only feed the guards above.
- The server (`main.py`) is not part of this model.
- `setTimeout` delays are not modelled. A scheduled drain is a pending event that fires at some later point.
