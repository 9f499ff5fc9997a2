/**
 * The drain loop of `processAudioQueue` seen from the server's side: once
 * the worker is busy, each reply (success or failure) is followed by the
 * drain that its `finally` block schedules, and the backlog empties one
 * segment at a time, in the order the segments were pushed.
 */
module Worker {

  import opened Interview
  import opened Invariants

  /** The in-flight request settles with `outcome`; then the drain its `finally` scheduled runs. */
  function Round(s: Session, outcome: Option<Reply>): Session {
    TimerFired(ReplyArrived(s, 0, outcome))
  }

  /** A round is the two events it stands for. */
  lemma RoundIsTwoEvents(s: Session, outcome: Option<Reply>)
    ensures Round(s, outcome) == Run(s, [AnalysisSettled(0, outcome), DrainTimer])
  {
    var es := [AnalysisSettled(0, outcome), DrainTimer];
    assert es[1..] == [DrainTimer] && es[1..][1..] == [];
    calc {
      Run(s, es);
      Run(Step(s, es[0]), es[1..]);
      Run(Step(Step(s, es[0]), DrainTimer), []);
    }
  }

  /** The server answers the in-flight request and then each queued one, with the given outcomes. */
  function Settle(s: Session, outcomes: seq<Option<Reply>>): Session
    decreases |outcomes|
  {
    if outcomes == [] then s else Settle(Round(s, outcomes[0]), outcomes[1..])
  }

  /** How many of the outcomes are failures. */
  function FailureCount(outcomes: seq<Option<Reply>>): nat
    decreases |outcomes|
  {
    if outcomes == [] then 0 else (if outcomes[0].None? then 1 else 0) + FailureCount(outcomes[1..])
  }

  /**
   * Reference definition of the history the worker should produce: one
   * turn per successful outcome, pairing it with its segment, in segment
   * order; every segment yields a turn or counts as a failure.
   */
  function Successes(segs: seq<Segment>, outcomes: seq<Option<Reply>>): (r: seq<Turn>)
    requires |segs| == |outcomes|
    ensures |r| + FailureCount(outcomes) == |segs|
    decreases |segs|
  {
    if segs == [] then []
    else (if outcomes[0].Some? then [Turn(segs[0], outcomes[0].value)] else []) + Successes(segs[1..], outcomes[1..])
  }

  /** The reference history splits after its first segment. */
  lemma SplitFirst(first: Segment, rest: seq<Segment>, outcomes: seq<Option<Reply>>)
    requires |outcomes| == 1 + |rest|
    ensures Successes([first] + rest, outcomes) == Successes([first], [outcomes[0]]) + Successes(rest, outcomes[1..])
    ensures FailureCount(outcomes) == FailureCount([outcomes[0]]) + FailureCount(outcomes[1..])
  {
    assert ([first] + rest)[1..] == rest;
    assert [first][1..] == [] && [outcomes[0]][1..] == [];
  }

  /**
   * One round: the in-flight segment becomes a turn or a failure, the busy
   * flag is cleared, and the scheduled drain sends the next queued segment
   * if there is one. Nothing outside the worker changes.
   */
  lemma RoundAdvances(s: Session, outcome: Option<Reply>)
    requires OneInFlight(s) && s.isAnalyzing
    ensures var r := Round(s, outcome);
      && OneInFlight(r)
      && r.history == s.history + Successes([s.inFlight[0]], [outcome])
      && r.failures == s.failures + FailureCount([outcome])
      && r.analyzedCount == s.analyzedCount + 1 - FailureCount([outcome])
      && (s.queue == [] ==> !r.isAnalyzing && r.queue == [])
      && (s.queue != [] ==> r.isAnalyzing && r.inFlight == [s.queue[0]] && r.queue == s.queue[1..])
      && r.recorder == s.recorder && r.isRecording == s.isRecording && r.ended == s.ended
  {
  }

  lemma {:induction false} SettleKeepsInv(s: Session, outcomes: seq<Option<Reply>>)
    requires Inv(s)
    ensures Inv(Settle(s, outcomes))
    decreases |outcomes|
  {
    if outcomes != [] {
      var s1 := ReplyArrived(s, 0, outcomes[0]);
      ReplyArrivedKeepsInv(s, 0, outcomes[0]);
      if s1.timers > 0 {
        DrainKeepsInv(s1.(timers := s1.timers - 1));
      }
      SettleKeepsInv(Round(s, outcomes[0]), outcomes[1..]);
    }
  }

  /**
   * Whatever the server answers, a busy worker with a backlog ends idle with
   * an empty queue, and the history gains exactly the successful segments,
   * in push order.
   */
  lemma {:induction false} SettleDrainsInOrder(s: Session, outcomes: seq<Option<Reply>>)
    requires OneInFlight(s) && s.isAnalyzing
    requires |outcomes| == |s.inFlight| + |s.queue|
    ensures var r := Settle(s, outcomes);
      && !r.isAnalyzing && r.inFlight == [] && r.queue == []
      && r.history == s.history + Successes(s.inFlight + s.queue, outcomes)
    decreases |outcomes|
  {
    var o := outcomes[0];
    var s1 := Round(s, o);
    RoundAdvances(s, o);
    assert s.inFlight == [s.inFlight[0]];
    SplitFirst(s.inFlight[0], s.queue, outcomes);
    if s.queue == [] {
      assert outcomes[1..] == [];
    } else {
      assert s1.inFlight + s1.queue == s.queue by {
        assert s.queue == [s.queue[0]] + s.queue[1..];
      }
      SettleDrainsInOrder(s1, outcomes[1..]);
      ConcatAssoc(s.history, Successes([s.inFlight[0]], [o]), Successes(s.queue, outcomes[1..]));
    }
  }

  /** Concatenation regroups freely. */
  lemma ConcatAssoc<T>(h: seq<T>, a: seq<T>, b: seq<T>)
    ensures (h + a) + b == h + (a + b)
  {
  }

  /**
   * Over the same rounds, every failed outcome is counted once, every
   * successful one raises the turn count by one, and the recording side of
   * the page is left alone.
   */
  lemma {:induction false} SettleCounts(s: Session, outcomes: seq<Option<Reply>>)
    requires OneInFlight(s) && s.isAnalyzing
    requires |outcomes| == |s.inFlight| + |s.queue|
    ensures Settle(s, outcomes).failures == s.failures + FailureCount(outcomes)
    ensures Settle(s, outcomes).analyzedCount + FailureCount(outcomes) == s.analyzedCount + |outcomes|
    ensures var r := Settle(s, outcomes); r.recorder == s.recorder && r.isRecording == s.isRecording && r.ended == s.ended
    decreases |outcomes|
  {
    var o := outcomes[0];
    var s1 := Round(s, o);
    RoundAdvances(s, o);
    assert FailureCount(outcomes) == FailureCount([o]) + FailureCount(outcomes[1..]) by {
      assert [o][1..] == [];
    }

    assert Settle(s, outcomes) == Settle(s1, outcomes[1..]);
    if s.queue != [] {
      SettleCounts(s1, outcomes[1..]);
    }
  }

  /**
   * Segments A (in flight), B and C (queued) answered with success, failure,
   * success: the history gains the turns of A and C only, one failure is
   * counted and the turn count rises by two.
   */
  lemma FailureDropsOnlyItsSegment(s: Session, a: Segment, b: Segment, c: Segment, ra: Reply, rc: Reply)
    requires s.isAnalyzing && s.inFlight == [a] && s.queue == [b, c]
    ensures var r := Settle(s, [Some(ra), None, Some(rc)]);
      && r.history == s.history + [Turn(a, ra), Turn(c, rc)]
      && r.failures == s.failures + 1
      && r.analyzedCount == s.analyzedCount + 2
      && r.queue == [] && !r.isAnalyzing
  {
    var outcomes := [Some(ra), None, Some(rc)];
    SettleDrainsInOrder(s, outcomes);
    SettleCounts(s, outcomes);
    assert [a] + [b, c] == [a, b, c];
    assert Successes([c], outcomes[2..]) == [Turn(c, rc)];
    assert Successes([b, c], outcomes[1..]) == [Turn(c, rc)];
    assert Successes([a, b, c], outcomes) == [Turn(a, ra), Turn(c, rc)];
    assert FailureCount(outcomes) == 1;
  }

  /** Every outcome is a reply. */
  predicate AllSucceed(outcomes: seq<Option<Reply>>) {
    forall i :: 0 <= i < |outcomes| ==> outcomes[i].Some?
  }

  /** When every request succeeds, each segment gets its own turn, in the same position. */
  lemma {:induction false} AllSucceedKeepsEverySegment(segs: seq<Segment>, outcomes: seq<Option<Reply>>)
    requires |segs| == |outcomes| && AllSucceed(outcomes)
    ensures |Successes(segs, outcomes)| == |segs|
    ensures forall i :: 0 <= i < |segs| ==> Successes(segs, outcomes)[i] == Turn(segs[i], outcomes[i].value)
    decreases |segs|
  {
    if segs != [] {
      var rest := outcomes[1..];
      assert AllSucceed(rest) by {
        forall i | 0 <= i < |rest|
          ensures rest[i].Some?
        {
          assert rest[i] == outcomes[i + 1];
        }
      }
      AllSucceedKeepsEverySegment(segs[1..], rest);
      var tail := Successes(segs[1..], rest);
      assert Successes(segs, outcomes) == [Turn(segs[0], outcomes[0].value)] + tail;
      forall i | 0 <= i < |segs|
        ensures Successes(segs, outcomes)[i] == Turn(segs[i], outcomes[i].value)
      {
        if i > 0 {
          assert Successes(segs, outcomes)[i] == tail[i - 1];
          assert segs[1..][i - 1] == segs[i] && rest[i - 1] == outcomes[i];
        }
      }
    }
  }
}
