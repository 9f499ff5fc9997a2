/**
 * The recording controller over time: how `requestAnalysis` hands one turn
 * to the queue and resumes recording, and how `endInterview` closes the
 * session for good (until the resume is analysed again, which resets it).
 */
module Lifecycle {

  import opened Interview
  import opened Invariants

  /** True when no event in the trace is a click on the resume-analysis button. */
  predicate NoReset(es: seq<Event>) {
    forall i :: 0 <= i < |es| ==> !es[i].AnalyzeResume?
  }

  /**
   * Handlers that can still push audio after the end: the final `onstop`
   * handler of `endInterview` while it is installed, and the handlers of
   * replaced recorders whose `stop` event has not arrived yet.
   */
  function FlushOwed(s: Session): nat {
    (if s.recorder.MediaRecorder? && s.recorder.onstop == OnEnd then 1 else 0) + |s.orphans|
  }

  /**
   * A request for analysis while recording, followed by the recorder's
   * `stop` event: the turn's audio is pushed if it is not empty, and
   * recording resumes at once unless the interview has ended.
   */
  lemma RequestAnalysisHandsOverTurn(s: Session, audio: Blob)
    requires Inv(s) && !s.ended && s.isRecording && s.recorder.capturing
    ensures var r := Run(s, [StartClick, RecorderStopped(audio)]);
      && r.isRecording && r.recorder == MediaRecorder(true, NoHandler, false)
      && r.inFlight + r.queue == s.inFlight + s.queue + (if |audio| > 0 then [Segment(s.nextId, audio)] else [])
      && Tracked(r) == Tracked(s) + (if |audio| > 0 then [Segment(s.nextId, audio)] else [])
      && r.nextId == s.nextId + (if |audio| > 0 then 1 else 0)
      && r.history == s.history
      && (|audio| > 0 ==> r.isAnalyzing)
  {
    RunTwo(s, StartClick, RecorderStopped(audio));
    StepStart(s);
    var s1 := StartButton(s);
    assert s1 == s.(recorder := MediaRecorder(false, OnAnalysis, true), isRecording := false);
    StepStop(s1, audio);
    var p := s1.(recorder := MediaRecorder(false, OnAnalysis, false));
    assert StopEvent(s1, audio) == RunOnStop(p, audio);
    HandOverRuns(p, audio);
  }

  /** The analysis handler runs on a session that has not ended. */
  lemma HandOverRuns(p: Session, audio: Blob)
    requires p.recorder == MediaRecorder(false, OnAnalysis, false) && !p.ended
    ensures var r := RunOnStop(p, audio);
      && r.isRecording && r.recorder == MediaRecorder(true, NoHandler, false)
      && r.inFlight + r.queue == p.inFlight + p.queue + (if |audio| > 0 then [Segment(p.nextId, audio)] else [])
      && Tracked(r) == Tracked(p) + (if |audio| > 0 then [Segment(p.nextId, audio)] else [])
      && r.nextId == p.nextId + (if |audio| > 0 then 1 else 0)
      && r.history == p.history
      && (|audio| > 0 ==> r.isAnalyzing)
  {
    var r := RunOnStop(p, audio);
    var s1 := Submit(p, audio);
    assert r == s1.(recorder := MediaRecorder(true, NoHandler, false), isRecording := true);
    assert Tracked(r) == Answered(p.history) + (r.inFlight + r.queue);
    assert Tracked(p) == Answered(p.history) + (p.inFlight + p.queue);
  }

  /**
   * `endInterview` twice is `endInterview` once, whatever audio the second
   * call would have flushed.
   */
  lemma EndIsIdempotent(s: Session, first: Blob, second: Blob)
    ensures Step(Step(s, EndClick(first)), EndClick(second)) == Step(s, EndClick(first))
  {
  }

  /** Once the interview has ended, the start and end buttons do nothing. */
  lemma EndedIgnoresButtons(s: Session, audio: Blob)
    requires s.ended
    ensures Step(s, StartClick) == s
    ensures Step(s, EndClick(audio)) == s
  {
  }

  /**
   * After the interview has ended, every event except the resume-analysis
   * reset leaves it ended, and none but a late `getUserMedia` resolution
   * can turn recording back on.
   */
  lemma EndedStaysEnded(s: Session, e: Event)
    requires Inv(s) && s.ended && !e.AnalyzeResume?
    ensures Step(s, e).ended
    ensures !e.MicOpened? && Step(s, e).isRecording ==> s.isRecording
  {
  }

  /** One event after the end pushes a segment only by spending a handler that was still owed. */
  lemma EndedStepSpendsOwedFlush(s: Session, e: Event)
    requires Inv(s) && s.ended && !e.AnalyzeResume?
    ensures Step(s, e).nextId + FlushOwed(Step(s, e)) <= s.nextId + FlushOwed(s)
  {
    match e {
      case RecorderStopped(blob) => StepStop(s, blob); EndedStopSpends(s, blob);
      case MicOpened => StepMic(s); EndedGrantSpends(s);
      case OrphanStopped(k, blob) => StepOrphan(s, k, blob); EndedOrphanSpends(s, k, blob);
      case _ =>
    }
  }

  lemma EndedStopSpends(s: Session, blob: Blob)
    requires Inv(s) && s.ended
    ensures StopEvent(s, blob).nextId + FlushOwed(StopEvent(s, blob)) <= s.nextId + FlushOwed(s)
  {
    if s.recorder.stopQueued {
      assert s.recorder.onstop != OnAnalysis;
    }
  }

  lemma EndedGrantSpends(s: Session)
    requires Inv(s) && s.ended
    ensures MicGranted(s).nextId + FlushOwed(MicGranted(s)) <= s.nextId + FlushOwed(s)
  {
    if s.micRequests > 0 {
      assert |Orphaned(s.recorder)| <= (if s.recorder.onstop == OnEnd then 1 else 0);
    }
  }

  lemma EndedOrphanSpends(s: Session, k: nat, blob: Blob)
    requires Inv(s) && s.ended
    ensures OrphanFired(s, k, blob).nextId + FlushOwed(OrphanFired(s, k, blob)) <= s.nextId + FlushOwed(s)
  {
    if k < |s.orphans| && s.recorder.MediaRecorder? {
      assert |OrphanFired(s, k, blob).orphans| == |s.orphans| - 1;
    }
  }

  /**
   * After `endInterview`, and until the session is reset, the segments
   * still pushed are at most the handlers owed at the end: the final
   * `onstop` handler and those of replaced recorders.
   */
  lemma {:induction false} EndedFlushesOnlyWhatIsOwed(s: Session, es: seq<Event>)
    requires Inv(s) && s.ended && NoReset(es)
    ensures Run(s, es).ended
    ensures Run(s, es).nextId + FlushOwed(Run(s, es)) <= s.nextId + FlushOwed(s)
    decreases |es|
  {
    if es != [] {
      EndedStaysEnded(s, es[0]);
      EndedStepSpendsOwedFlush(s, es[0]);
      StepKeepsInv(s, es[0]);
      assert NoReset(es[1..]) by {
        forall i | 0 <= i < |es[1..]|
          ensures !es[1..][i].AnalyzeResume?
        {
          assert es[1..][i] == es[i + 1];
        }
      }
      EndedFlushesOnlyWhatIsOwed(Step(s, es[0]), es[1..]);
    }
  }

  /**
   * Ending the interview while the stop of a requested analysis is still
   * pending: the recorder is no longer recording, so the final handler
   * replaces the analysis handler and runs at once on whatever audio is
   * buffered at that moment. The turn's audio arrives with the late `stop`
   * event, which finds no handler: it is never pushed, and recording does
   * not resume. Since the page starts the recorder without a timeslice,
   * nothing is buffered before the `stop` event, so with `buffered` empty
   * the whole turn is lost.
   */
  lemma EndDuringPendingStop(s: Session, buffered: Blob, late: Blob)
    requires Inv(s) && !s.ended && s.isRecording && s.recorder.capturing
    ensures var r := Run(s, [StartClick, EndClick(buffered), RecorderStopped(late)]);
      && r.ended && !r.isRecording
      && r.nextId == s.nextId + (if |buffered| > 0 then 1 else 0)
      && Tracked(r) == Tracked(s) + (if |buffered| > 0 then [Segment(s.nextId, buffered)] else [])
      && r.recorder == MediaRecorder(false, NoHandler, false)
  {
    RunThree(s, StartClick, EndClick(buffered), RecorderStopped(late));
    StepStart(s);
    var s1 := StartButton(s);
    assert s1 == RequestAnalysis(s) && s1.recorder == MediaRecorder(false, OnAnalysis, true);
    StepEnd(s1, buffered);
    var s2 := EndInterview(s1, buffered);
    assert s2.recorder == MediaRecorder(false, NoHandler, true);
    StepStop(s2, late);
    EndThenLateStop(s1, buffered, late);
  }

  /** The end click and the late `stop` event of the lemma above. */
  lemma EndThenLateStop(s: Session, buffered: Blob, late: Blob)
    requires Inv(s) && !s.ended && !s.isRecording && s.recorder == MediaRecorder(false, OnAnalysis, true)
    ensures var r := StopEvent(EndInterview(s, buffered), late);
      && r.ended && !r.isRecording
      && r.nextId == s.nextId + (if |buffered| > 0 then 1 else 0)
      && Tracked(r) == Tracked(s) + (if |buffered| > 0 then [Segment(s.nextId, buffered)] else [])
      && r.recorder == MediaRecorder(false, NoHandler, false)
  {
    var s1 := s.(ended := true, isRecording := false, recorder := s.recorder.(onstop := OnEnd));
    assert EndInterview(s, buffered) == RunOnStop(s1, buffered);
    assert Tracked(s1) == Tracked(s);
    SubmitExtendsTracked(s1, buffered);
    var s2 := RunOnStop(s1, buffered);
    assert s2 == Submit(s1, buffered).(recorder := MediaRecorder(false, NoHandler, true));
    assert StopEvent(s2, late) == s2.(recorder := MediaRecorder(false, NoHandler, false));
  }

  /**
   * The microphone opens while the `stop` event of a requested analysis is
   * still pending on the current recorder: the new recorder replaces it and
   * records, and when the old recorder's `stop` event arrives, its handler
   * still pushes that turn's audio. Its call to `startRecording` then meets
   * a recorder that is already recording and throws, so the new recorder
   * records on undisturbed.
   */
  lemma ReplacedRecorderStillSubmits(s: Session, audio: Blob)
    requires Inv(s) && !s.ended && s.micRequests > 0
    requires s.recorder == MediaRecorder(false, OnAnalysis, true)
    ensures var r := Run(s, [MicOpened, OrphanStopped(|s.orphans|, audio)]);
      && r.isRecording && r.recorder == MediaRecorder(true, NoHandler, false)
      && Tracked(r) == Tracked(s) + (if |audio| > 0 then [Segment(s.nextId, audio)] else [])
      && r.nextId == s.nextId + (if |audio| > 0 then 1 else 0)
      && r.orphans == s.orphans
  {
    RunTwo(s, MicOpened, OrphanStopped(|s.orphans|, audio));
    StepMic(s);
    StepOrphan(MicGranted(s), |s.orphans|, audio);
    GrantThenLateStop(s, audio);
  }

  /** The two transitions of the lemma above. */
  lemma GrantThenLateStop(s: Session, audio: Blob)
    requires Inv(s) && !s.ended && s.micRequests > 0
    requires s.recorder == MediaRecorder(false, OnAnalysis, true)
    ensures var r := OrphanFired(MicGranted(s), |s.orphans|, audio);
      && r.isRecording && r.recorder == MediaRecorder(true, NoHandler, false)
      && Tracked(r) == Tracked(s) + (if |audio| > 0 then [Segment(s.nextId, audio)] else [])
      && r.nextId == s.nextId + (if |audio| > 0 then 1 else 0)
      && r.orphans == s.orphans
  {
    var s1 := MicGranted(s);
    assert s1.orphans == s.orphans + [OnAnalysis];
    assert s1.orphans[..|s.orphans|] + s1.orphans[|s.orphans| + 1..] == s.orphans;
    LateAnalysisStopSubmits(s1, |s.orphans|, audio);
    SubmitExtendsTracked(s1.(orphans := s.orphans), audio);
  }

  /** A late analysis handler that meets a capturing recorder only pushes its audio. */
  lemma LateAnalysisStopSubmits(s: Session, k: nat, audio: Blob)
    requires k < |s.orphans| && s.orphans[k] == OnAnalysis
    requires !s.ended && s.recorder.MediaRecorder? && s.recorder.capturing
    ensures OrphanFired(s, k, audio) == Submit(s.(orphans := s.orphans[..k] + s.orphans[k + 1..]), audio)
  {
  }

  /** Pushing a segment appends it to the tracked segments. */
  lemma SubmitExtendsTracked(s: Session, audio: Blob)
    ensures Tracked(Submit(s, audio)) == Tracked(s) + (if |audio| > 0 then [Segment(s.nextId, audio)] else [])
  {
    var r := Submit(s, audio);
    assert Tracked(r) == Answered(r.history) + (r.inFlight + r.queue);
    assert Tracked(s) == Answered(s.history) + (s.inFlight + s.queue);
  }

  /**
   * The reset done by the resume-analysis button leaves `isAnalyzing` set:
   * a reply still in flight at that moment becomes the first turn of the
   * new session, although it answers audio recorded before the reset, and
   * the turn count becomes one.
   */
  lemma StaleReplyCrossesReset(s: Session, reply: Reply)
    requires Inv(s) && s.isAnalyzing
    ensures var r := Run(s, [AnalyzeResume, AnalysisSettled(0, Some(reply))]);
      && r.history == [Turn(s.inFlight[0], reply)]
      && r.history[0].segment.id < s.nextId
      && r.analyzedCount == 1
  {
    RunTwo(s, AnalyzeResume, AnalysisSettled(0, Some(reply)));
    StepReset(s);
    StepSettled(ResetSession(s), 0, Some(reply));
    assert Tracked(s)[|s.history|] == s.inFlight[0];
  }

  /**
   * `startInterview` does not look at `interviewEnded` after `getUserMedia`
   * resolves. In this trace every click is on a button the page shows as
   * enabled: a resume re-analysis that completes between a requested
   * analysis and the next start click lets the start button ask for the
   * microphone again; ending the interview before the microphone opens
   * leaves the page recording with the interview marked as ended.
   */
  lemma MicGrantAfterEndRecords(md: string, a: Blob, b: Blob)
    requires md != "" && |a| > 0
    ensures var r := Run(Init(), MicRaceTrace(md, a, b));
      r.ended && r.isRecording
  {
    var opening := [AnalyzeResume, ResumeAnalyzed(Some(md)), StartClick, MicOpened, StartClick];
    var middle := [AnalyzeResume, RecorderStopped(a), StartClick, ResumeAnalyzed(Some(md))];
    var closing := [StartClick, EndClick(b), MicOpened];
    assert MicRaceTrace(md, a, b) == opening + middle + closing;
    RunConcat(Init(), opening, middle);
    RunConcat(Init(), opening + middle, closing);
    RaceOpening(md);
    RaceMiddle(Run(Init(), opening), md, a);
    RaceClosing(Run(Init(), opening + middle), b);
  }

  /** The trace of the lemma above. */
  function MicRaceTrace(md: string, a: Blob, b: Blob): seq<Event> {
    [ AnalyzeResume, ResumeAnalyzed(Some(md)), StartClick, MicOpened, StartClick,
      AnalyzeResume, RecorderStopped(a), StartClick, ResumeAnalyzed(Some(md)),
      StartClick, EndClick(b), MicOpened ]
  }

  /** The state at which the race trace waits for a `stop` event, with no request outstanding. */
  predicate AwaitingStop(s: Session, md: string) {
    && s.resume == md && !s.ended && !s.isRecording
    && s.recorder == MediaRecorder(false, OnAnalysis, true)
    && s.micRequests == 0 && s.resumeRequests == 0
  }

  /** A resume is analysed, recording starts and an analysis is requested. */
  lemma RaceOpening(md: string)
    requires md != ""
    ensures AwaitingStop(Run(Init(), [AnalyzeResume, ResumeAnalyzed(Some(md)), StartClick, MicOpened, StartClick]), md)
  {
    var es := [AnalyzeResume, ResumeAnalyzed(Some(md)), StartClick, MicOpened, StartClick];
    var s2 := ResumeArrived(ResetSession(Init()), Some(md));
    assert s2.resume == md && s2.recorder.NoRecorder? && !s2.ended && !s2.isRecording && s2.micRequests == 0;
    var s4 := MicGranted(StartButton(s2));
    assert s4.isRecording && s4.recorder == MediaRecorder(true, NoHandler, false) && !s4.ended;
    RunConcat(Init(), es[..2], es[2..]);
    RunTwo(Init(), es[0], es[1]);
    RunThree(s2, es[2], es[3], es[4]);
    assert es[..2] + es[2..] == es && es[..2] == [es[0], es[1]] && es[2..] == [es[2], es[3], es[4]];
  }

  /**
   * The resume is analysed again while the stop is pending: the stop event
   * restarts recording, the start button requests another analysis, and the
   * new resume arrives.
   */
  lemma RaceMiddle(s: Session, md: string, a: Blob)
    requires AwaitingStop(s, md) && |a| > 0
    ensures AwaitingStop(Run(s, [AnalyzeResume, RecorderStopped(a), StartClick, ResumeAnalyzed(Some(md))]), md)
  {
    var es := [AnalyzeResume, RecorderStopped(a), StartClick, ResumeAnalyzed(Some(md))];
    var s1 := ResetSession(s);
    var p := s1.(recorder := MediaRecorder(false, OnAnalysis, false));
    HandOverRuns(p, a);
    var s2 := StopEvent(s1, a);
    assert s2 == RunOnStop(p, a);
    var s3 := StartButton(s2);
    assert s3.recorder == MediaRecorder(false, OnAnalysis, true) && !s3.isRecording && s3.resumeRequests == 1;
    RunConcat(s, es[..2], es[2..]);
    RunTwo(s, es[0], es[1]);
    RunTwo(s2, es[2], es[3]);
    assert es[..2] + es[2..] == es && es[..2] == [es[0], es[1]] && es[2..] == [es[2], es[3]];
  }

  /** The start button asks for the microphone, the interview ends, and then the microphone opens. */
  lemma RaceClosing(s: Session, b: Blob)
    requires AwaitingStop(s, s.resume) && s.resume != ""
    ensures var r := Run(s, [StartClick, EndClick(b), MicOpened]);
      r.ended && r.isRecording
  {
    RunThree(s, StartClick, EndClick(b), MicOpened);
    var s1 := StartButton(s);
    assert s1.micRequests == 1 && !s1.ended;
    var s2 := EndInterview(s1, b);
    assert s2.ended && s2.micRequests == 1;
  }

  /** Running two traces one after the other is running their concatenation. */
  lemma {:induction false} RunConcat(s: Session, xs: seq<Event>, ys: seq<Event>)
    ensures Run(s, xs + ys) == Run(Run(s, xs), ys)
    decreases |xs|
  {
    if xs == [] {
      assert xs + ys == ys;
    } else {
      assert (xs + ys)[0] == xs[0] && (xs + ys)[1..] == xs[1..] + ys;
      RunConcat(Step(s, xs[0]), xs[1..], ys);
    }
  }

  /** Running a suffix of a trace is running its first event and then the rest. */
  lemma RunFrom(s: Session, es: seq<Event>, k: nat)
    requires k < |es|
    ensures Run(s, es[k..]) == Run(Step(s, es[k]), es[k + 1..])
  {
    assert es[k..][0] == es[k] && es[k..][1..] == es[k + 1..];
  }

  lemma RunTwo(s: Session, e1: Event, e2: Event)
    ensures Run(s, [e1, e2]) == Step(Step(s, e1), e2)
  {
    var es := [e1, e2];
    RunFrom(s, es, 0);
    RunFrom(Step(s, e1), es, 1);
    assert es[2..] == [];
  }

  lemma RunThree(s: Session, e1: Event, e2: Event, e3: Event)
    ensures Run(s, [e1, e2, e3]) == Step(Step(Step(s, e1), e2), e3)
  {
    var es := [e1, e2, e3];
    RunFrom(s, es, 0);
    RunFrom(Step(s, e1), es, 1);
    RunFrom(Step(Step(s, e1), e2), es, 2);
    assert es[3..] == [];
  }
}
