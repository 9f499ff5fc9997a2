/**
 * The page's transitions as evidently intended where the code falls short:
 * the resume-analysis reset retires the requests still in flight, a
 * microphone that opens after the end is not used, and ending the interview
 * while an analysis stop is pending waits for that stop's audio. Every other
 * event behaves as the page does.
 */
module Corrections {

  import opened Interview
  import opened Invariants
  import Lifecycle

  /** The segment a submit pushes, if any. */
  function Pushed(id: nat, blob: Blob): seq<Segment> {
    if |blob| > 0 then [Segment(id, blob)] else []
  }

  /**
   * The resume-analysis reset with the in-flight request retired along with
   * the old session: its reply, when it comes, is not attributed to the new
   * session, and the worker starts the new session idle.
   */
  function ResetRetiring(s: Session): (r: Session)
    ensures Tracked(r) == [] && !r.isAnalyzing && !r.ended && !r.isRecording
    ensures r.nextId == s.nextId && r.cleared == s.cleared + |Tracked(s)|
    ensures r.(inFlight := s.inFlight, isAnalyzing := s.isAnalyzing, cleared := ResetSession(s).cleared) == ResetSession(s)
  {
    var r0 := ResetSession(s);
    r0.(inFlight := [], isAnalyzing := false, cleared := r0.cleared + |s.inFlight|)
  }

  /**
   * `getUserMedia` resolving after the interview has ended: the stream is
   * released and no recorder is created. Before the end it behaves as the
   * page does.
   */
  function MicGrantedChecked(s: Session): (r: Session)
    ensures s.ended ==> r.ended && r.isRecording == s.isRecording && r.recorder == s.recorder && Tracked(r) == Tracked(s)
    ensures s.ended ==> r == s.(micRequests := if s.micRequests == 0 then 0 else s.micRequests - 1)
    ensures !s.ended ==> r == MicGranted(s)
  {
    if s.ended then s.(micRequests := if s.micRequests == 0 then 0 else s.micRequests - 1)
    else MicGranted(s)
  }

  /**
   * `endInterview` that leaves a pending `stop` event to deliver its audio:
   * when the recorder has already been stopped for an analysis, the final
   * handler replaces the analysis handler and waits for the event instead
   * of running at once on an empty buffer.
   */
  function EndAwaitingStop(s: Session, buffered: Blob): (r: Session)
    ensures s.recorder.MediaRecorder? && !s.ended && s.recorder.stopQueued && !s.recorder.capturing ==>
      && r.ended && !r.isRecording && r.recorder == s.recorder.(onstop := OnEnd)
      && Tracked(r) == Tracked(s) && r.nextId == s.nextId && r.isAnalyzing == s.isAnalyzing
    ensures !(s.recorder.MediaRecorder? && !s.ended && s.recorder.stopQueued && !s.recorder.capturing) ==>
      r == EndInterview(s, buffered)
  {
    if s.recorder.MediaRecorder? && !s.ended && s.recorder.stopQueued && !s.recorder.capturing then
      s.(ended := true, isRecording := false, recorder := s.recorder.(onstop := OnEnd))
    else EndInterview(s, buffered)
  }

  /** One event, with the three corrections in place. */
  function StepChecked(s: Session, e: Event): Session {
    match e
    case AnalyzeResume => ResetRetiring(s)
    case MicOpened => MicGrantedChecked(s)
    case EndClick(buffered) => EndAwaitingStop(s, buffered)
    case _ => Step(s, e)
  }

  /** A trace of events with the corrections in place. */
  function RunChecked(s: Session, es: seq<Event>): Session
    decreases |es|
  {
    if es == [] then s else RunChecked(StepChecked(s, es[0]), es[1..])
  }

  /** Events the corrections leave alone run as on the page. */
  lemma CheckedDefers(s: Session, e: Event)
    requires !e.AnalyzeResume? && !e.MicOpened? && !e.EndClick?
    ensures StepChecked(s, e) == Step(s, e)
  {
  }

  lemma CheckedEnd(s: Session, buffered: Blob)
    ensures StepChecked(s, EndClick(buffered)) == EndAwaitingStop(s, buffered)
  {
  }

  /** The retiring reset keeps the invariant. */
  lemma ResetRetiringKeepsInv(s: Session)
    requires Inv(s)
    ensures Inv(ResetRetiring(s))
  {
    var r := ResetRetiring(s);
    assert r.nextId == |r.history| + |r.inFlight| + |r.queue| + r.failures + r.cleared;
  }

  /** The checked grant keeps the invariant. */
  lemma MicGrantedCheckedKeepsInv(s: Session)
    requires Inv(s)
    ensures Inv(MicGrantedChecked(s))
  {
    if s.ended {
      assert Tracked(MicGrantedChecked(s)) == Tracked(s);
    } else {
      MicGrantedKeepsInv(s);
    }
  }

  /** The corrected end keeps the invariant. */
  lemma EndAwaitingStopKeepsInv(s: Session, buffered: Blob)
    requires Inv(s)
    ensures Inv(EndAwaitingStop(s, buffered))
  {
    if s.recorder.MediaRecorder? && !s.ended && s.recorder.stopQueued && !s.recorder.capturing {
      assert Tracked(EndAwaitingStop(s, buffered)) == Tracked(s);
    } else {
      EndInterviewKeepsInv(s, buffered);
    }
  }

  /** Three events in a row. */
  lemma RunCheckedThree(s: Session, e1: Event, e2: Event, e3: Event)
    ensures RunChecked(s, [e1, e2, e3]) == StepChecked(StepChecked(StepChecked(s, e1), e2), e3)
  {
    var es := [e1, e2, e3];
    var s1 := StepChecked(s, e1);
    var s2 := StepChecked(s1, e2);
    assert es[1..] == [e2, e3] && [e2, e3][1..] == [e3] && [e3][1..] == [];
    assert RunChecked(s, es) == RunChecked(s1, [e2, e3]);
    assert RunChecked(s1, [e2, e3]) == RunChecked(s2, [e3]);
    assert RunChecked(s2, [e3]) == RunChecked(StepChecked(s2, e3), []);
  }

  /** The page's invariant holds under the corrected transitions too. */
  lemma StepCheckedKeepsInv(s: Session, e: Event)
    requires Inv(s)
    ensures Inv(StepChecked(s, e))
  {
    match e {
      case AnalyzeResume => ResetRetiringKeepsInv(s);
      case MicOpened => MicGrantedCheckedKeepsInv(s);
      case EndClick(buffered) => CheckedEnd(s, buffered); EndAwaitingStopKeepsInv(s, buffered);
      case _ => CheckedDefers(s, e); StepKeepsInv(s, e);
    }
  }

  /** With the corrections, an ended interview is never recording. */
  predicate EndedIdle(s: Session) {
    s.ended ==> !s.isRecording
  }

  lemma StepCheckedKeepsEndedIdle(s: Session, e: Event)
    requires Inv(s) && EndedIdle(s)
    ensures EndedIdle(StepChecked(s, e))
  {
    match e {
      case RecorderStopped(buffered) =>
        if s.recorder.MediaRecorder? && s.recorder.stopQueued {
          var r := StopEvent(s, buffered);
          assert r.isRecording <==> s.isRecording || (s.recorder.onstop == OnAnalysis && !s.ended);
        }
      case OrphanStopped(k, buffered) =>
      case _ =>
    }
  }

  /**
   * Corrected: in every state reached from the loaded page, an ended
   * interview is not recording.
   */
  lemma {:induction false} CheckedEndStopsRecording(s: Session, es: seq<Event>)
    requires Inv(s) && EndedIdle(s)
    ensures var r := RunChecked(s, es); r.ended ==> !r.isRecording
    decreases |es|
  {
    if es != [] {
      StepCheckedKeepsInv(s, es[0]);
      StepCheckedKeepsEndedIdle(s, es[0]);
      CheckedEndStopsRecording(StepChecked(s, es[0]), es[1..]);
    }
  }

  /** The loaded page is ended-idle, so the lemma above covers every trace from it. */
  lemma CheckedRaceStaysIdle(md: string, a: Blob, b: Blob)
    ensures var r := RunChecked(Init(), Lifecycle.MicRaceTrace(md, a, b)); r.ended ==> !r.isRecording
  {
    InitInv();
    CheckedEndStopsRecording(Init(), Lifecycle.MicRaceTrace(md, a, b));
  }

  /** Every segment in the list was pushed at or after push number `n`. */
  predicate IdsFrom(segs: seq<Segment>, n: nat) {
    forall i :: 0 <= i < |segs| ==> segs[i].id >= n
  }

  /** A transition that only appends a fresh push keeps the segments fresh. */
  lemma ExtendedFresh(s: Session, r: Session, blob: Blob, n: nat)
    requires r.history == s.history && r.inFlight + r.queue == s.inFlight + s.queue + Pushed(s.nextId, blob)
    requires IdsFrom(Tracked(s), n) && n <= s.nextId
    ensures IdsFrom(Tracked(r), n)
  {
    assert Tracked(r) == Answered(r.history) + (r.inFlight + r.queue);
    assert Tracked(s) == Answered(s.history) + (s.inFlight + s.queue);
    assert Tracked(r) == Tracked(s) + Pushed(s.nextId, blob);
  }

  /** A reply only moves its segment into the history or drops it. */
  lemma ReplyFresh(s: Session, i: nat, outcome: Option<Reply>, n: nat)
    requires Inv(s) && IdsFrom(Tracked(s), n)
    ensures IdsFrom(Tracked(ReplyArrived(s, i, outcome)), n)
  {
    if i < |s.inFlight| {
      var seg := s.inFlight[0];
      assert s.inFlight == [seg];
      assert Tracked(s) == Answered(s.history) + [seg] + s.queue;
      var r := ReplyArrived(s, i, outcome);
      match outcome {
        case Some(reply) =>
          AnsweredAppend(s.history, Turn(seg, reply));
          assert Tracked(r) == Tracked(s);
        case None =>
          var a := Answered(s.history);
          assert Tracked(r) == a + s.queue;
          forall j | 0 <= j < |Tracked(r)| ensures Tracked(r)[j].id >= n {
            if j < |a| {
              assert Tracked(r)[j] == Tracked(s)[j];
            } else {
              assert Tracked(r)[j] == Tracked(s)[j + 1];
            }
          }
      }
    }
  }

  /** The `stop` event of the current recorder keeps the segments fresh. */
  lemma StopFresh(s: Session, buffered: Blob, n: nat)
    requires Inv(s) && IdsFrom(Tracked(s), n) && n <= s.nextId
    ensures IdsFrom(Tracked(StopEvent(s, buffered)), n) && n <= StopEvent(s, buffered).nextId
  {
    if s.recorder.MediaRecorder? && s.recorder.stopQueued {
      var p := s.(recorder := s.recorder.(stopQueued := false));
      assert Tracked(p) == Tracked(s);
      if p.recorder.onstop != NoHandler {
        ExtendedFresh(p, RunOnStop(p, buffered), buffered, n);
      }
    }
  }

  /** The corrected end keeps the segments fresh. */
  lemma EndFresh(s: Session, buffered: Blob, n: nat)
    requires Inv(s) && IdsFrom(Tracked(s), n) && n <= s.nextId
    ensures IdsFrom(Tracked(EndAwaitingStop(s, buffered)), n) && n <= EndAwaitingStop(s, buffered).nextId
  {
    if !(s.recorder.MediaRecorder? && !s.ended && s.recorder.stopQueued && !s.recorder.capturing)
      && s.recorder.MediaRecorder? && !s.ended && !s.recorder.capturing
    {
      var s1 := s.(ended := true, isRecording := false, recorder := s.recorder.(onstop := OnEnd));
      assert Tracked(s1) == Tracked(s);
      ExtendedFresh(s1, RunOnStop(s1, buffered), buffered, n);
    }
  }

  /** A late handler of a replaced recorder keeps the segments fresh. */
  lemma OrphanFresh(s: Session, k: nat, buffered: Blob, n: nat)
    requires Inv(s) && IdsFrom(Tracked(s), n) && n <= s.nextId
    ensures IdsFrom(Tracked(OrphanFired(s, k, buffered)), n) && n <= OrphanFired(s, k, buffered).nextId
  {
    if k < |s.orphans| && s.recorder.MediaRecorder? {
      var s0 := s.(orphans := s.orphans[..k] + s.orphans[k + 1..]);
      assert Tracked(s0) == Tracked(s);
      if s.orphans[k] != NoHandler {
        ExtendedFresh(s, OrphanFired(s, k, buffered), buffered, n);
      }
    }
  }

  /** Events that only touch the page's controls leave the held segments alone. */
  lemma QuietKeepsTracked(s: Session, e: Event)
    requires e.AddKeypoint? || e.RemoveKeypoint? || e.ResumeAnalyzed? || e.StartClick? || e.MicFailed?
    ensures Tracked(Step(s, e)) == Tracked(s) && Step(s, e).nextId == s.nextId
  {
    match e {
      case StartClick => StepStart(s);
      case _ =>
    }
  }

  /** Every event but a reset keeps every held segment at or after push `n`. */
  lemma StepCheckedFresh(s: Session, e: Event, n: nat)
    requires Inv(s) && !e.AnalyzeResume? && IdsFrom(Tracked(s), n) && n <= s.nextId
    ensures IdsFrom(Tracked(StepChecked(s, e)), n) && n <= StepChecked(s, e).nextId
  {
    match e {
      case MicOpened => assert Tracked(MicGrantedChecked(s)) == Tracked(s);
      case EndClick(buffered) => CheckedEnd(s, buffered); EndFresh(s, buffered, n);
      case RecorderStopped(buffered) => CheckedDefers(s, e); StepStop(s, buffered); StopFresh(s, buffered, n);
      case DrainTimer =>
        CheckedDefers(s, e); StepDrain(s);
        if s.timers > 0 { DrainKeepsTracked(s.(timers := s.timers - 1)); }
      case AnalysisSettled(i, outcome) => CheckedDefers(s, e); StepSettled(s, i, outcome); ReplyFresh(s, i, outcome, n);
      case OrphanStopped(k, buffered) => CheckedDefers(s, e); StepOrphan(s, k, buffered); OrphanFresh(s, k, buffered, n);
      case _ => CheckedDefers(s, e); QuietKeepsTracked(s, e);
    }
  }

  /** Between resets, what the session holds stays at or after push `n`. */
  lemma {:induction false} RunCheckedFresh(s: Session, es: seq<Event>, n: nat)
    requires Inv(s) && Lifecycle.NoReset(es) && IdsFrom(Tracked(s), n) && n <= s.nextId
    ensures IdsFrom(Tracked(RunChecked(s, es)), n)
    decreases |es|
  {
    if es != [] {
      assert !es[0].AnalyzeResume?;
      StepCheckedKeepsInv(s, es[0]);
      StepCheckedFresh(s, es[0], n);
      assert Lifecycle.NoReset(es[1..]) by {
        forall i | 0 <= i < |es[1..]| ensures !es[1..][i].AnalyzeResume? {
          assert es[1..][i] == es[i + 1];
        }
      }
      RunCheckedFresh(StepChecked(s, es[0]), es[1..], n);
    }
  }

  /**
   * Corrected: after the resume-analysis reset, and until the next one,
   * every turn of the history answers audio recorded after the reset; a
   * reply to a request sent before it never enters the new history.
   */
  lemma RetiredRequestsNeverAnswer(s: Session, es: seq<Event>)
    requires Inv(s) && Lifecycle.NoReset(es)
    ensures var r := RunChecked(ResetRetiring(s), es);
      forall i :: 0 <= i < |r.history| ==> r.history[i].segment.id >= s.nextId
  {
    StepCheckedKeepsInv(s, AnalyzeResume);
    RunCheckedFresh(ResetRetiring(s), es, s.nextId);
    var r := RunChecked(ResetRetiring(s), es);
    forall i | 0 <= i < |r.history| ensures r.history[i].segment.id >= s.nextId {
      assert Tracked(r)[i] == r.history[i].segment;
    }
  }

  /**
   * Corrected: ending the interview while an analysis stop is pending
   * keeps the final handler for that stop, so the audio it delivers is
   * pushed and recording does not resume.
   */
  lemma CorrectedEndKeepsPendingTurn(s: Session, buffered: Blob, late: Blob)
    requires Inv(s) && !s.ended && s.recorder.MediaRecorder? && s.recorder.stopQueued && !s.recorder.capturing
    ensures var r := StopEvent(EndAwaitingStop(s, buffered), late);
      && r.ended && !r.isRecording
      && Tracked(r) == Tracked(s) + Pushed(s.nextId, late)
      && r.nextId == s.nextId + |Pushed(s.nextId, late)|
      && r.recorder.onstop == NoHandler && !r.recorder.stopQueued
  {
    var s1 := EndAwaitingStop(s, buffered);
    var p := s1.(recorder := s1.recorder.(stopQueued := false));
    assert Tracked(p) == Tracked(s);
    Lifecycle.SubmitExtendsTracked(p, late);
  }

  /**
   * The scenario of the as-written ending: a request for analysis, the end
   * click, then the late `stop` event. With the correction the turn's audio
   * is pushed.
   */
  lemma CorrectedEndDuringPendingStop(s: Session, buffered: Blob, late: Blob)
    requires Inv(s) && !s.ended && s.isRecording && s.recorder.capturing
    ensures var r := RunChecked(s, [StartClick, EndClick(buffered), RecorderStopped(late)]);
      && r.ended && !r.isRecording
      && Tracked(r) == Tracked(s) + Pushed(s.nextId, late)
  {
    RunCheckedThree(s, StartClick, EndClick(buffered), RecorderStopped(late));
    CheckedDefers(s, StartClick);
    StepStart(s);
    var s1 := StartButton(s);
    assert s1 == RequestAnalysis(s) && Inv(s1) by { StartButtonKeepsInv(s); }
    CheckedEnd(s1, buffered);
    var s2 := EndAwaitingStop(s1, buffered);
    CheckedDefers(s2, RecorderStopped(late));
    StepStop(s2, late);
    assert Tracked(s1) == Tracked(s);
    CorrectedEndKeepsPendingTurn(s1, buffered, late);
  }
}
