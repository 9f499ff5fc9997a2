/**
 * The turn-sequencing engine of the live interview page: the variables its
 * event handlers share, and one pure transition per atomic step.
 *
 * The page runs in one JavaScript event loop, so a handler runs to
 * completion once started. An `async` function is cut at each `await` and
 * each callback boundary: the part before the boundary belongs to the
 * transition that called it, the part after it is a transition of its own
 * that the environment fires when the promise settles or the browser
 * delivers the event. Audio and server replies are opaque values chosen by
 * the environment; a request to the analysis server settles as `Some(reply)`
 * or as `None` (network error, non-2xx status or an `error` field).
 */
module Interview {

  import Keypoints

  datatype Option<T> = None | Some(value: T)

  /** Audio captured by the browser; only whether it is empty matters here. */
  type Blob = seq<bv8>

  /**
   * A segment on the audio queue. The page pushes the bare blob; `id` is
   * bookkeeping that numbers the pushes so that order can be stated.
   */
  datatype Segment = Segment(id: nat, audio: Blob)

  /** The JSON body of a successful `/process-audio` reply. */
  datatype Reply = Reply(transcript: string, analysis: string, followUps: seq<string>, cumulativeScore: int)

  /**
   * An entry of the reply history. The page stores the reply only; the
   * segment it answers is bookkeeping.
   */
  datatype Turn = Turn(segment: Segment, reply: Reply)

  /** The callback installed as the recorder's `onstop`. */
  datatype Handler = NoHandler | OnAnalysis | OnEnd

  /**
   * The page's `mediaRecorder`: absent until the microphone is first opened;
   * `capturing` is `state === 'recording'`, `stopQueued` says a `stop` event
   * is on its way after a call to `stop()`.
   */
  datatype Recorder = NoRecorder | MediaRecorder(capturing: bool, onstop: Handler, stopQueued: bool)

  /** The shared variables of the page, plus the work the event loop still owes. */
  datatype Session = Session(
    resume: string,            // markdownResume
    keypoints: seq<string>,    // keypoints
    recorder: Recorder,        // mediaRecorder
    queue: seq<Segment>,       // audioQueue
    history: seq<Turn>,        // llmResponseHistory
    isRecording: bool,
    isAnalyzing: bool,
    analyzedCount: nat,        // totalAnalyzedCount
    ended: bool,               // interviewEnded
    inFlight: seq<Segment>,    // /process-audio requests awaiting their reply
    timers: nat,               // setTimeout(processAudioQueue, 0) callbacks not yet run
    micRequests: nat,          // getUserMedia calls not yet settled
    resumeRequests: nat,       // /analyze-resume requests not yet settled
    nextId: nat,               // segments ever pushed onto the queue
    failures: nat,             // segments whose analysis failed
    cleared: nat,              // segments and turns thrown away by a session reset
    orphans: seq<Handler>      // handlers of replaced recorders whose `stop` event is still on its way
  )

  /** Everything that can happen to the page. */
  datatype Event =
    | AddKeypoint(input: string)
    | RemoveKeypoint(index: nat)
    | AnalyzeResume                              // click on the resume-analysis button
    | ResumeAnalyzed(markdown: Option<string>)   // its request settles
    | StartClick                                 // click on the start / request-analysis button
    | MicOpened                                  // getUserMedia resolves
    | MicFailed                                  // getUserMedia rejects
    | EndClick(buffered: Blob)                   // click on the end button; `buffered` is the audio held so far
    | RecorderStopped(buffered: Blob)            // the recorder's `stop` event
    | DrainTimer                                 // a scheduled processAudioQueue runs
    | AnalysisSettled(request: nat, outcome: Option<Reply>)  // an in-flight request settles
    | OrphanStopped(index: nat, buffered: Blob)  // the `stop` event of a replaced recorder

  /** The state when the page has loaded. */
  function Init(): Session {
    Session("", Keypoints.Initial(), NoRecorder, [], [], false, false, 0, false, [], 0, 0, 0, 0, 0, 0, [])
  }

  /**
   * `processAudioQueue` up to its `await`: unless the worker is busy or the
   * queue is empty, mark it busy and send the head of the queue.
   */
  function Drain(s: Session): (r: Session)
    ensures s.isAnalyzing || s.queue == [] ==> r == s
    ensures !s.isAnalyzing && s.queue != [] ==>
      && r.isAnalyzing
      && r.inFlight == s.inFlight + [s.queue[0]]
      && r.queue == s.queue[1..]
      && r.(isAnalyzing := s.isAnalyzing, inFlight := s.inFlight, queue := s.queue) == s
    ensures r.inFlight + r.queue == s.inFlight + s.queue
  {
    if s.isAnalyzing || s.queue == [] then s
    else s.(isAnalyzing := true, inFlight := s.inFlight + [s.queue[0]], queue := s.queue[1..])
  }

  /**
   * The part both `onstop` handlers share: a non-empty blob is pushed onto
   * the queue and the drain is invoked; an empty one is dropped.
   */
  function Submit(s: Session, blob: Blob): (r: Session)
    ensures |blob| == 0 ==> r == s
    ensures |blob| > 0 ==>
      && r.nextId == s.nextId + 1
      && r.inFlight + r.queue == s.inFlight + s.queue + [Segment(s.nextId, blob)]
      && r.isAnalyzing
      && r.(inFlight := s.inFlight, queue := s.queue, isAnalyzing := s.isAnalyzing, nextId := s.nextId) == s
  {
    if |blob| == 0 then s
    else Drain(s.(queue := s.queue + [Segment(s.nextId, blob)], nextId := s.nextId + 1))
  }

  /** `startRecording`: the recorder captures again and the page records. */
  function StartRecording(s: Session): Session
    requires s.recorder.MediaRecorder?
  {
    s.(recorder := s.recorder.(capturing := true), isRecording := true)
  }

  /** `mediaRecorder.stop()`: a capturing recorder stops and queues its `stop` event. */
  function Stop(rec: Recorder): Recorder
    requires rec.MediaRecorder?
  {
    if rec.capturing then rec.(capturing := false, stopQueued := true) else rec
  }

  /**
   * Running the installed `onstop` handler with the audio collected so far.
   * Both handlers submit the audio and then uninstall themselves; the one
   * `requestAnalysis` installs also restarts recording unless the interview
   * has ended by then.
   */
  function RunOnStop(s: Session, blob: Blob): (r: Session)
    requires s.recorder.MediaRecorder?
    ensures s.recorder.onstop == NoHandler ==> r == s
    ensures r.recorder.MediaRecorder? && r.recorder.onstop == NoHandler
    ensures r.isRecording <==> s.isRecording || (s.recorder.onstop == OnAnalysis && !s.ended)
    ensures s.recorder.onstop != NoHandler ==>
      r.inFlight + r.queue == s.inFlight + s.queue + (if |blob| > 0 then [Segment(s.nextId, blob)] else [])
    ensures r.history == s.history && r.ended == s.ended && r.failures == s.failures && r.cleared == s.cleared
    ensures r.micRequests == s.micRequests && r.timers == s.timers && r.keypoints == s.keypoints
  {
    match s.recorder.onstop
    case NoHandler => s
    case OnAnalysis =>
      var s1 := Submit(s, blob);
      var s2 := if !s1.ended then StartRecording(s1) else s1;
      s2.(recorder := s2.recorder.(onstop := NoHandler))
    case OnEnd =>
      var s1 := Submit(s, blob);
      s1.(recorder := s1.recorder.(onstop := NoHandler))
  }

  /**
   * `requestAnalysis`: with a recorder that is recording, install the
   * analysis `onstop` handler, stop the recorder and clear `isRecording`;
   * otherwise do nothing.
   */
  function RequestAnalysis(s: Session): (r: Session)
    ensures s.recorder.NoRecorder? || !s.isRecording ==> r == s
    ensures s.recorder.MediaRecorder? && s.isRecording ==>
      && !r.isRecording
      && r.recorder.MediaRecorder? && r.recorder.onstop == OnAnalysis
      && (s.recorder.capturing ==> !r.recorder.capturing && r.recorder.stopQueued)
      && r.(recorder := s.recorder, isRecording := s.isRecording) == s
  {
    if s.recorder.NoRecorder? || !s.isRecording then s
    else s.(recorder := Stop(s.recorder.(onstop := OnAnalysis)), isRecording := false)
  }

  /**
   * `startInterview` up to its `await`: refuse while no resume has been
   * analysed, otherwise ask for the microphone.
   */
  function StartInterview(s: Session): (r: Session)
    ensures s.resume == "" ==> r == s
    ensures s.resume != "" ==> r == s.(micRequests := s.micRequests + 1)
  {
    if s.resume == "" then s else s.(micRequests := s.micRequests + 1)
  }

  /**
   * The start button: ignored once the interview has ended; requests an
   * analysis while recording and starts the interview otherwise.
   */
  function StartButton(s: Session): Session {
    if s.ended then s
    else if s.isRecording then RequestAnalysis(s)
    else StartInterview(s)
  }

  /**
   * `getUserMedia` resolves: a new recorder (with no `onstop`) replaces the
   * old one and `startRecording` runs. `interviewEnded` is not consulted.
   * The old recorder is not stopped; if its `stop` event is still on its
   * way, the handler it carries will still run when that event arrives.
   */
  function MicGranted(s: Session): (r: Session)
    ensures s.micRequests == 0 ==> r == s
    ensures s.micRequests > 0 ==>
      && r.isRecording && r.recorder == MediaRecorder(true, NoHandler, false)
      && r.micRequests == s.micRequests - 1
      && r.orphans == s.orphans + Orphaned(s.recorder)
      && r.(isRecording := s.isRecording, recorder := s.recorder, micRequests := s.micRequests, orphans := s.orphans) == s
  {
    if s.micRequests == 0 then s
    else s.(micRequests := s.micRequests - 1, recorder := MediaRecorder(true, NoHandler, false), isRecording := true,
            orphans := s.orphans + Orphaned(s.recorder))
  }

  /** The handler a replaced recorder will still run: one whose `stop` event is pending and which has a handler. */
  function Orphaned(rec: Recorder): (r: seq<Handler>)
    ensures |r| <= 1 && (r != [] <==> rec.MediaRecorder? && rec.stopQueued && rec.onstop != NoHandler)
    ensures r != [] ==> r[0] == rec.onstop
  {
    if rec.MediaRecorder? && rec.stopQueued && rec.onstop != NoHandler then [rec.onstop] else []
  }

  /**
   * The `stop` event of a replaced recorder runs the closure it carries.
   * The closure reads the page's variables, so it acts on the current
   * recorder: the analysis handler submits its audio and then, unless the
   * interview has ended, calls `startRecording`, whose `start()` throws
   * when the current recorder is already recording (the rest of the
   * closure is then skipped); otherwise it clears the current recorder's
   * `onstop`. The final handler submits its audio, stops the current
   * recorder's tracks (which stops a recording recorder) and clears its
   * `onstop`.
   */
  function OrphanFired(s: Session, k: nat, blob: Blob): (r: Session)
    ensures k >= |s.orphans| || s.recorder.NoRecorder? ==> r == s
    ensures k < |s.orphans| && s.recorder.MediaRecorder? ==>
      && r.orphans == s.orphans[..k] + s.orphans[k + 1..]
      && r.recorder.MediaRecorder?
      && (s.orphans[k] != NoHandler ==>
            r.inFlight + r.queue == s.inFlight + s.queue + (if |blob| > 0 then [Segment(s.nextId, blob)] else []))
      && (r.isRecording <==> s.isRecording || (s.orphans[k] == OnAnalysis && !s.ended && !s.recorder.capturing))
      && (s.orphans[k] == OnEnd ==> !r.recorder.capturing && r.recorder.onstop == NoHandler)
    ensures r.history == s.history && r.ended == s.ended && r.failures == s.failures && r.cleared == s.cleared
    ensures r.micRequests == s.micRequests && r.timers == s.timers && r.keypoints == s.keypoints
  {
    if k >= |s.orphans| || s.recorder.NoRecorder? then s
    else
      var s0 := s.(orphans := s.orphans[..k] + s.orphans[k + 1..]);
      match s.orphans[k]
      case NoHandler => s0
      case OnAnalysis => LateAnalysis(s0, blob)
      case OnEnd => LateEnd(s0, blob)
  }

  /** The analysis handler of a replaced recorder, run against the current recorder. */
  function LateAnalysis(s: Session, blob: Blob): Session
    requires s.recorder.MediaRecorder?
  {
    var s1 := Submit(s, blob);
    if s1.ended then s1.(recorder := s1.recorder.(onstop := NoHandler))
    else if s1.recorder.capturing then s1
    else
      var s2 := StartRecording(s1);
      s2.(recorder := s2.recorder.(onstop := NoHandler))
  }

  /** The final handler of a replaced recorder, run against the current recorder. */
  function LateEnd(s: Session, blob: Blob): Session
    requires s.recorder.MediaRecorder?
  {
    var s1 := Submit(s, blob);
    s1.(recorder := Stop(s1.recorder).(onstop := NoHandler))
  }

  /** `getUserMedia` rejects: only an error message is shown. */
  function MicDenied(s: Session): (r: Session)
    ensures r == s.(micRequests := if s.micRequests == 0 then 0 else s.micRequests - 1)
  {
    if s.micRequests == 0 then s else s.(micRequests := s.micRequests - 1)
  }

  /**
   * `endInterview`: without a recorder, or once ended, nothing happens.
   * Otherwise mark the interview ended, clear `isRecording` and install the
   * final `onstop` handler; a capturing recorder is stopped (the handler runs
   * when its `stop` event arrives), any other recorder has the handler
   * called at once on the audio buffered so far.
   */
  function EndInterview(s: Session, buffered: Blob): (r: Session)
    ensures s.recorder.NoRecorder? || s.ended ==> r == s
    ensures s.recorder.MediaRecorder? && !s.ended ==>
      && r.ended && !r.isRecording && r.recorder.MediaRecorder?
      && r.history == s.history && r.micRequests == s.micRequests
    ensures s.recorder.MediaRecorder? && !s.ended && s.recorder.capturing ==>
      && r.recorder == MediaRecorder(false, OnEnd, true)
      && r.queue == s.queue && r.inFlight == s.inFlight && r.nextId == s.nextId
    ensures s.recorder.MediaRecorder? && !s.ended && !s.recorder.capturing ==>
      && r.recorder.onstop == NoHandler && r.recorder.stopQueued == s.recorder.stopQueued
      && r.inFlight + r.queue == s.inFlight + s.queue + (if |buffered| > 0 then [Segment(s.nextId, buffered)] else [])
  {
    if s.recorder.NoRecorder? || s.ended then s
    else
      var s1 := s.(ended := true, isRecording := false, recorder := s.recorder.(onstop := OnEnd));
      if s.recorder.capturing then s1.(recorder := Stop(s1.recorder))
      else RunOnStop(s1, buffered)
  }

  /** The recorder's `stop` event: the handler installed at that moment runs. */
  function StopEvent(s: Session, buffered: Blob): (r: Session)
    ensures s.recorder.NoRecorder? || !s.recorder.stopQueued ==> r == s
    ensures s.recorder.MediaRecorder? && s.recorder.stopQueued ==>
      && r.recorder.MediaRecorder? && !r.recorder.stopQueued && r.recorder.onstop == NoHandler
      && (r.isRecording <==> s.isRecording || (s.recorder.onstop == OnAnalysis && !s.ended))
  {
    if s.recorder.NoRecorder? || !s.recorder.stopQueued then s
    else RunOnStop(s.(recorder := s.recorder.(stopQueued := false)), buffered)
  }

  /** A `setTimeout(processAudioQueue, 0)` callback runs. */
  function TimerFired(s: Session): (r: Session)
    ensures s.timers == 0 ==> r == s
    ensures s.timers > 0 ==> r == Drain(s.(timers := s.timers - 1))
  {
    if s.timers == 0 then s else Drain(s.(timers := s.timers - 1))
  }

  /**
   * The `/process-audio` request for in-flight segment `i` settles. On
   * success the reply is appended to the history and the count rises by
   * one; on failure the segment is dropped. Either way `finally` clears
   * the busy flag and schedules the drain again.
   */
  function ReplyArrived(s: Session, i: nat, outcome: Option<Reply>): (r: Session)
    ensures i >= |s.inFlight| ==> r == s
    ensures i < |s.inFlight| ==>
      && !r.isAnalyzing && r.timers == s.timers + 1
      && r.inFlight == s.inFlight[..i] + s.inFlight[i + 1..]
      && r.queue == s.queue && r.nextId == s.nextId && r.cleared == s.cleared
      && r.recorder == s.recorder && r.isRecording == s.isRecording && r.ended == s.ended
    ensures i < |s.inFlight| && outcome.Some? ==>
      && r.history == s.history + [Turn(s.inFlight[i], outcome.value)]
      && r.analyzedCount == s.analyzedCount + 1 && r.failures == s.failures
    ensures i < |s.inFlight| && outcome.None? ==>
      && r.history == s.history && r.analyzedCount == s.analyzedCount && r.failures == s.failures + 1
  {
    if i >= |s.inFlight| then s
    else
      var seg := s.inFlight[i];
      var s1 := match outcome
        case Some(reply) => s.(history := s.history + [Turn(seg, reply)], analyzedCount := s.analyzedCount + 1)
        case None => s.(failures := s.failures + 1);
      s1.(inFlight := s.inFlight[..i] + s.inFlight[i + 1..], isAnalyzing := false, timers := s.timers + 1)
  }

  /**
   * The resume-analysis button, after its file and API-key checks: the
   * interview session is reset and the request is sent. `isAnalyzing` and
   * the recorder are left as they are.
   */
  function ResetSession(s: Session): (r: Session)
    ensures r.queue == [] && r.history == [] && r.analyzedCount == 0
    ensures !r.ended && !r.isRecording
    ensures r.isAnalyzing == s.isAnalyzing && r.inFlight == s.inFlight && r.recorder == s.recorder
    ensures r.cleared == s.cleared + |s.queue| + |s.history| && r.nextId == s.nextId
    ensures r.resumeRequests == s.resumeRequests + 1 && r.resume == s.resume
  {
    s.(queue := [], history := [], analyzedCount := 0, ended := false, isRecording := false,
       resumeRequests := s.resumeRequests + 1, cleared := s.cleared + |s.queue| + |s.history|)
  }

  /** The resume-analysis request settles; on success the resume text is replaced. */
  function ResumeArrived(s: Session, markdown: Option<string>): (r: Session)
    ensures s.resumeRequests == 0 ==> r == s
    ensures s.resumeRequests > 0 ==>
      r == s.(resumeRequests := s.resumeRequests - 1, resume := if markdown.Some? then markdown.value else s.resume)
  {
    if s.resumeRequests == 0 then s
    else
      match markdown
      case Some(md) => s.(resumeRequests := s.resumeRequests - 1, resume := md)
      case None => s.(resumeRequests := s.resumeRequests - 1)
  }

  /** One event. */
  function Step(s: Session, e: Event): Session {
    match e
    case AddKeypoint(input) => s.(keypoints := Keypoints.Add(s.keypoints, input))
    case RemoveKeypoint(index) => s.(keypoints := Keypoints.Remove(s.keypoints, index))
    case AnalyzeResume => ResetSession(s)
    case ResumeAnalyzed(markdown) => ResumeArrived(s, markdown)
    case StartClick => StartButton(s)
    case MicOpened => MicGranted(s)
    case MicFailed => MicDenied(s)
    case EndClick(buffered) => EndInterview(s, buffered)
    case RecorderStopped(buffered) => StopEvent(s, buffered)
    case DrainTimer => TimerFired(s)
    case AnalysisSettled(i, outcome) => ReplyArrived(s, i, outcome)
    case OrphanStopped(k, buffered) => OrphanFired(s, k, buffered)
  }

  /** A trace of events, in order. */
  function Run(s: Session, es: seq<Event>): Session
    decreases |es|
  {
    if es == [] then s else Run(Step(s, es[0]), es[1..])
  }
}
