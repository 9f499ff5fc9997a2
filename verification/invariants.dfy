/**
 * What every reachable state of the interview page satisfies, whatever
 * order the clicks, recorder events, timers and server replies arrive in.
 */
module Invariants {

  import opened Interview
  import Keypoints

  /** The segments the history's turns answer, in history order. */
  function Answered(h: seq<Turn>): seq<Segment> {
    seq(|h|, i requires 0 <= i < |h| => h[i].segment)
  }

  /** Every segment the session still holds: answered, in flight, queued. */
  function Tracked(s: Session): seq<Segment> {
    Answered(s.history) + s.inFlight + s.queue
  }

  /**
   * Segments listed in the order they were pushed, each pushed before
   * `next` and each carrying audio.
   */
  predicate InPushOrder(segs: seq<Segment>, next: nat) {
    && (forall i, j :: 0 <= i < j < |segs| ==> segs[i].id < segs[j].id)
    && (forall i :: 0 <= i < |segs| ==> segs[i].id < next && |segs[i].audio| > 0)
  }

  /** The busy flag is set exactly when one request, and no more, is in flight. */
  predicate OneInFlight(s: Session) {
    |s.inFlight| == (if s.isAnalyzing then 1 else 0)
  }

  /**
   * No segment is lost or duplicated: the count of turns is the length of
   * the history, what the session holds is in push order, and every push
   * is held, failed, or was thrown away by a reset.
   */
  predicate Accounted(s: Session) {
    && s.analyzedCount == |s.history|
    && InPushOrder(Tracked(s), s.nextId)
    && s.nextId == |s.history| + |s.inFlight| + |s.queue| + s.failures + s.cleared
  }

  /** Queued work with an idle worker always has a drain scheduled. */
  predicate NoStall(s: Session) {
    !s.isAnalyzing && s.queue != [] ==> s.timers > 0
  }

  /**
   * The page's flags agree with the recorder: there is one while recording
   * or once ended, and after the end the analysis handler is never
   * installed. (A handler of a replaced recorder can stop the current one,
   * so recording does not imply that the recorder captures.)
   */
  predicate RecorderAgrees(s: Session) {
    && (s.isRecording ==> s.recorder.MediaRecorder?)
    && (s.ended ==> s.recorder.MediaRecorder? && s.recorder.onstop != OnAnalysis)
  }

  predicate Inv(s: Session) {
    && Keypoints.Distinct(s.keypoints)
    && OneInFlight(s)
    && Accounted(s)
    && NoStall(s)
    && RecorderAgrees(s)
  }

  lemma InitInv()
    ensures Inv(Init())
  {
  }

  lemma PushOrderAppend(segs: seq<Segment>, x: Segment, next: nat)
    requires InPushOrder(segs, next) && x.id == next && |x.audio| > 0
    ensures InPushOrder(segs + [x], next + 1)
  {
  }

  lemma PushOrderDrop(a: seq<Segment>, x: Segment, b: seq<Segment>, next: nat)
    requires InPushOrder(a + [x] + b, next)
    ensures InPushOrder(a + b, next)
  {
    var all := a + [x] + b;
    forall i, j | 0 <= i < j < |a + b|
      ensures (a + b)[i].id < (a + b)[j].id
    {
      var i' := if i < |a| then i else i + 1;
      var j' := if j < |a| then j else j + 1;
      assert (a + b)[i] == all[i'] && (a + b)[j] == all[j'];
    }
    forall i | 0 <= i < |a + b|
      ensures (a + b)[i].id < next && |(a + b)[i].audio| > 0
    {
      var i' := if i < |a| then i else i + 1;
      assert (a + b)[i] == all[i'];
    }
  }

  lemma PushOrderMiddle(a: seq<Segment>, b: seq<Segment>, c: seq<Segment>, next: nat)
    requires InPushOrder(a + b + c, next)
    ensures InPushOrder(b, next)
  {
    var all := a + b + c;
    forall i | 0 <= i < |b|
      ensures b[i] == all[|a| + i]
    {
    }
  }

  lemma AnsweredAppend(h: seq<Turn>, t: Turn)
    ensures Answered(h + [t]) == Answered(h) + [t.segment]
  {
  }

  /** A drain moves the head of the queue into flight and nothing else. */
  lemma DrainKeepsTracked(s: Session)
    ensures Tracked(Drain(s)) == Tracked(s)
  {
    var r := Drain(s);
    assert Answered(r.history) + r.inFlight + r.queue == Answered(s.history) + (r.inFlight + r.queue);
  }

  /** After a drain an idle worker has an empty queue, so no timer is needed. */
  lemma DrainKeepsInv(s: Session)
    requires Keypoints.Distinct(s.keypoints) && OneInFlight(s) && Accounted(s) && RecorderAgrees(s)
    ensures Inv(Drain(s))
  {
    DrainKeepsTracked(s);
  }

  /** A non-empty blob is queued under the next id and then handed to the worker. */
  lemma SubmitDrains(s: Session, blob: Blob)
    requires |blob| > 0
    ensures Submit(s, blob) == Drain(s.(queue := s.queue + [Segment(s.nextId, blob)], nextId := s.nextId + 1))
  {
  }

  lemma SubmitKeepsInv(s: Session, blob: Blob)
    requires Inv(s)
    ensures Inv(Submit(s, blob))
  {
    if |blob| > 0 {
      var x := Segment(s.nextId, blob);
      var p := s.(queue := s.queue + [x], nextId := s.nextId + 1);
      assert Accounted(p) by {
        assert Tracked(p) == Tracked(s) + [x];
        PushOrderAppend(Tracked(s), x, s.nextId);
      }
      DrainKeepsInv(p);
      SubmitDrains(s, blob);
    }
  }

  lemma RunOnStopKeepsInv(s: Session, blob: Blob)
    requires Inv(s) && s.recorder.MediaRecorder?
    ensures Inv(RunOnStop(s, blob))
  {
    SubmitKeepsInv(s, blob);
  }

  lemma EndInterviewKeepsInv(s: Session, blob: Blob)
    requires Inv(s)
    ensures Inv(EndInterview(s, blob))
  {
    if s.recorder.MediaRecorder? && !s.ended && !s.recorder.capturing {
      var s1 := s.(ended := true, isRecording := false, recorder := s.recorder.(onstop := OnEnd));
      RunOnStopKeepsInv(s1, blob);
    }
  }

  lemma StopEventKeepsInv(s: Session, blob: Blob)
    requires Inv(s)
    ensures Inv(StopEvent(s, blob))
  {
    if s.recorder.MediaRecorder? && s.recorder.stopQueued {
      RunOnStopKeepsInv(s.(recorder := s.recorder.(stopQueued := false)), blob);
    }
  }

  lemma ReplyArrivedKeepsInv(s: Session, i: nat, outcome: Option<Reply>)
    requires Inv(s)
    ensures Inv(ReplyArrived(s, i, outcome))
  {
    if i < |s.inFlight| {
      var r := ReplyArrived(s, i, outcome);
      var seg := s.inFlight[i];
      assert i == 0 && s.inFlight == [seg] && r.inFlight == [];
      match outcome {
        case Some(reply) =>
          AnsweredAppend(s.history, Turn(seg, reply));
          assert Tracked(r) == Tracked(s);
        case None =>
          assert Tracked(s) == Answered(s.history) + [seg] + s.queue;
          assert Tracked(r) == Answered(s.history) + s.queue;
          PushOrderDrop(Answered(s.history), seg, s.queue, s.nextId);
      }
    }
  }

  lemma OrphanFiredKeepsInv(s: Session, k: nat, blob: Blob)
    requires Inv(s)
    ensures Inv(OrphanFired(s, k, blob))
  {
    if k < |s.orphans| && s.recorder.MediaRecorder? {
      var s0 := s.(orphans := s.orphans[..k] + s.orphans[k + 1..]);
      assert Tracked(s0) == Tracked(s);
      match s.orphans[k] {
        case NoHandler =>
        case OnAnalysis => LateAnalysisKeepsInv(s0, blob);
        case OnEnd => LateEndKeepsInv(s0, blob);
      }
    }
  }

  lemma LateAnalysisKeepsInv(s: Session, blob: Blob)
    requires Inv(s) && s.recorder.MediaRecorder?
    ensures Inv(LateAnalysis(s, blob))
  {
    var s1 := Submit(s, blob);
    SubmitKeepsInv(s, blob);
    if s1.ended {
      RecorderChangeKeepsInv(s1, s1.(recorder := s1.recorder.(onstop := NoHandler)));
    } else if !s1.recorder.capturing {
      var s2 := StartRecording(s1);
      RecorderChangeKeepsInv(s1, s2.(recorder := s2.recorder.(onstop := NoHandler)));
    }
  }

  lemma LateEndKeepsInv(s: Session, blob: Blob)
    requires Inv(s) && s.recorder.MediaRecorder?
    ensures Inv(LateEnd(s, blob))
  {
    var s1 := Submit(s, blob);
    SubmitKeepsInv(s, blob);
    RecorderChangeKeepsInv(s1, s1.(recorder := Stop(s1.recorder).(onstop := NoHandler)));
  }

  /** Changing only the recorder and the recording flag keeps the invariant when the flags still agree. */
  lemma RecorderChangeKeepsInv(s: Session, r: Session)
    requires Inv(s) && r == s.(recorder := r.recorder, isRecording := r.isRecording)
    requires r.recorder.MediaRecorder? && (r.ended ==> r.recorder.onstop != OnAnalysis)
    ensures Inv(r)
  {
    assert Tracked(r) == Tracked(s);
  }

  lemma ResetSessionKeepsInv(s: Session)
    requires Inv(s)
    ensures Inv(ResetSession(s))
  {
    var r := ResetSession(s);
    assert Tracked(r) == s.inFlight;
    PushOrderMiddle(Answered(s.history), s.inFlight, s.queue, s.nextId);
  }

  lemma KeypointEditKeepsInv(s: Session, kps: seq<string>)
    requires Inv(s) && Keypoints.Distinct(kps)
    ensures Inv(s.(keypoints := kps))
  {
    assert Tracked(s.(keypoints := kps)) == Tracked(s);
  }

  lemma StartButtonKeepsInv(s: Session)
    requires Inv(s)
    ensures Inv(StartButton(s))
  {
    assert Tracked(StartButton(s)) == Tracked(s);
  }

  lemma MicGrantedKeepsInv(s: Session)
    requires Inv(s)
    ensures Inv(MicGranted(s))
  {
    assert Tracked(MicGranted(s)) == Tracked(s);
  }

  // What one event of each kind does, each proved on its own.

  lemma StepStart(s: Session)
    ensures Step(s, StartClick) == StartButton(s)
  {
  }

  lemma StepMic(s: Session)
    ensures Step(s, MicOpened) == MicGranted(s)
  {
  }

  lemma StepEnd(s: Session, buffered: Blob)
    ensures Step(s, EndClick(buffered)) == EndInterview(s, buffered)
  {
  }

  lemma StepStop(s: Session, buffered: Blob)
    ensures Step(s, RecorderStopped(buffered)) == StopEvent(s, buffered)
  {
  }

  lemma StepDrain(s: Session)
    ensures Step(s, DrainTimer) == TimerFired(s)
  {
  }

  lemma StepSettled(s: Session, i: nat, outcome: Option<Reply>)
    ensures Step(s, AnalysisSettled(i, outcome)) == ReplyArrived(s, i, outcome)
  {
  }

  lemma StepReset(s: Session)
    ensures Step(s, AnalyzeResume) == ResetSession(s)
  {
  }

  lemma StepOrphan(s: Session, k: nat, buffered: Blob)
    ensures Step(s, OrphanStopped(k, buffered)) == OrphanFired(s, k, buffered)
  {
  }

  /** The page's controls keep the invariant. */
  lemma ControlKeepsInv(s: Session, e: Event)
    requires Inv(s) && !(e.EndClick? || e.RecorderStopped? || e.DrainTimer? || e.AnalysisSettled? || e.OrphanStopped?)
    ensures Inv(Step(s, e))
  {
    match e {
      case AddKeypoint(input) => KeypointEditKeepsInv(s, Keypoints.Add(s.keypoints, input));
      case RemoveKeypoint(index) => KeypointEditKeepsInv(s, Keypoints.Remove(s.keypoints, index));
      case AnalyzeResume => StepReset(s); ResetSessionKeepsInv(s);
      case ResumeAnalyzed(markdown) =>
      case StartClick => StepStart(s); StartButtonKeepsInv(s);
      case MicOpened => StepMic(s); MicGrantedKeepsInv(s);
      case MicFailed =>
    }
  }

  /** The recorder's, the timer's and the server's events keep the invariant. */
  lemma AudioKeepsInv(s: Session, e: Event)
    requires Inv(s) && (e.EndClick? || e.RecorderStopped? || e.DrainTimer? || e.AnalysisSettled? || e.OrphanStopped?)
    ensures Inv(Step(s, e))
  {
    match e {
      case EndClick(buffered) => StepEnd(s, buffered); EndInterviewKeepsInv(s, buffered);
      case RecorderStopped(buffered) => StepStop(s, buffered); StopEventKeepsInv(s, buffered);
      case DrainTimer => StepDrain(s); if s.timers > 0 { DrainKeepsInv(s.(timers := s.timers - 1)); }
      case AnalysisSettled(i, outcome) => StepSettled(s, i, outcome); ReplyArrivedKeepsInv(s, i, outcome);
      case OrphanStopped(k, buffered) => StepOrphan(s, k, buffered); OrphanFiredKeepsInv(s, k, buffered);
    }
  }

  /** Every event keeps the invariant. */
  lemma StepKeepsInv(s: Session, e: Event)
    requires Inv(s)
    ensures Inv(Step(s, e))
  {
    if e.EndClick? || e.RecorderStopped? || e.DrainTimer? || e.AnalysisSettled? || e.OrphanStopped? {
      AudioKeepsInv(s, e);
    } else {
      ControlKeepsInv(s, e);
    }
  }


  /** Any trace of events keeps the invariant. */
  lemma {:induction false} RunKeepsInv(s: Session, es: seq<Event>)
    requires Inv(s)
    ensures Inv(Run(s, es))
    decreases |es|
  {
    if es != [] {
      StepKeepsInv(s, es[0]);
      RunKeepsInv(Step(s, es[0]), es[1..]);
    }
  }

  /**
   * In every state the page can reach, at most one analysis request is in
   * flight, and it is in flight exactly while `isAnalyzing` is set.
   */
  lemma AtMostOneInFlight(es: seq<Event>)
    ensures |Run(Init(), es).inFlight| <= 1
    ensures Run(Init(), es).isAnalyzing <==> |Run(Init(), es).inFlight| == 1
  {
    InitInv();
    RunKeepsInv(Init(), es);
  }

  /**
   * In every reachable state the turn count equals the history's length,
   * the history, the in-flight request and the queue hold segments in the
   * order they were pushed, and every push is accounted for.
   */
  lemma ReachableAccounted(es: seq<Event>)
    ensures var s := Run(Init(), es);
      && s.analyzedCount == |s.history|
      && InPushOrder(Tracked(s), s.nextId)
      && s.nextId == |s.history| + |s.queue| + (if s.isAnalyzing then 1 else 0) + s.failures + s.cleared
  {
    InitInv();
    RunKeepsInv(Init(), es);
  }

  /**
   * Between resets the history only grows, by at most one turn per event,
   * and a new turn answers the segment that was in flight.
   */
  lemma HistoryAppendOnly(s: Session, e: Event)
    requires Inv(s) && !e.AnalyzeResume?
    ensures var r := Step(s, e);
      && |s.history| <= |r.history| <= |s.history| + 1
      && r.history[..|s.history|] == s.history
      && (|r.history| == |s.history| + 1 ==> s.isAnalyzing && r.history[|s.history|].segment == s.inFlight[0])
  {
  }
}
