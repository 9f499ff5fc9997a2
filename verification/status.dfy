/**
 * `updateStatus`: the status line under the interview controls. The line
 * is first chosen as a structured `Status` from the session's flags and
 * counters, then rendered as the page's Korean text; a parser of the
 * rendered text recovers the structured status.
 */
module Status {

  import opened Interview
  import opened Invariants
  import opened Worker
  import Lifecycle

  /** The kinds of status line, with the numbers each one shows. */
  datatype Status =
    | Override(text: string)                  // a message passed by the caller
    | Ended(finishing: bool)                  // "interview ended", "(final analysis...)" while work remains
    | RecordingTurn(turn: nat)                // "recording turn N"
    | AnalyzingTurn(turn: nat, waiting: nat)  // "analysing turn N", "(W waiting)" when W > 0
    | Preparing(turn: nat)                    // "preparing to analyse turn N"
    | Idle                                    // "waiting"

  /**
   * The branch `updateStatus` takes: a non-empty override wins; then the
   * ended flag, the recording flag, the busy flag and a non-empty queue, in
   * that order. A recording turn is numbered after every turn already
   * submitted (answered, in flight or queued); an analysis or its
   * preparation is numbered after the turns already answered.
   */
  function Project(s: Session, override: string): (r: Status)
    ensures override != "" ==> r == Override(override)
    ensures r.Ended? <==> override == "" && s.ended
    ensures r.RecordingTurn? <==> override == "" && !s.ended && s.isRecording
    ensures r.AnalyzingTurn? <==> override == "" && !s.ended && !s.isRecording && s.isAnalyzing
    ensures r.Preparing? <==> override == "" && !s.ended && !s.isRecording && !s.isAnalyzing && s.queue != []
    ensures r.Idle? <==> override == "" && !s.ended && !s.isRecording && !s.isAnalyzing && s.queue == []
    ensures OneInFlight(s) && r.Ended? ==> (r.finishing <==> s.inFlight + s.queue != [])
    ensures OneInFlight(s) && r.RecordingTurn? ==> r.turn == s.analyzedCount + |s.inFlight| + |s.queue| + 1
    ensures r.AnalyzingTurn? ==> r.turn == s.analyzedCount + 1 && r.waiting == |s.queue|
    ensures r.Preparing? ==> r.turn == s.analyzedCount + 1
  {
    if override != "" then Override(override)
    else
      var submitted := s.analyzedCount + |s.queue| + (if s.isAnalyzing then 1 else 0);
      if s.ended then Ended(s.isAnalyzing || |s.queue| > 0)
      else if s.isRecording then RecordingTurn(submitted + 1)
      else if s.isAnalyzing then AnalyzingTurn(s.analyzedCount + 1, |s.queue|)
      else if |s.queue| > 0 then Preparing(s.analyzedCount + 1)
      else Idle
  }

  // ---------------------------------------------------------------------
  // Decimal numerals, as template literals print a non-negative integer.

  predicate IsDigit(c: char) {
    '0' <= c <= '9'
  }

  predicate AllDigits(s: string) {
    forall i :: 0 <= i < |s| ==> IsDigit(s[i])
  }

  /** The decimal numeral of `n`, most significant digit first. */
  function Decimal(n: nat): (r: string)
    ensures r != [] && AllDigits(r)
    decreases n
  {
    if n < 10 then [(n + '0' as int) as char]
    else Decimal(n / 10) + [(n % 10 + '0' as int) as char]
  }

  /** The value of a numeral (the empty numeral is zero). */
  function DecimalValue(s: string): nat
    requires AllDigits(s)
    decreases |s|
  {
    if s == [] then 0
    else DecimalValue(s[..|s| - 1]) * 10 + (s[|s| - 1] as int - '0' as int)
  }

  /** Reading back a printed number gives the number. */
  lemma {:induction false} DecimalRoundTrip(n: nat)
    ensures DecimalValue(Decimal(n)) == n
    decreases n
  {
    if n >= 10 {
      var d := Decimal(n);
      DecimalRoundTrip(n / 10);
      assert d[..|d| - 1] == Decimal(n / 10);
    }
  }

  /** The longest run of digits at the front of `s`, and what follows it. */
  function SplitDigits(s: string): (r: (string, string))
    ensures r.0 + r.1 == s && AllDigits(r.0)
    ensures r.1 != [] ==> !IsDigit(r.1[0])
    decreases |s|
  {
    if s != [] && IsDigit(s[0]) then
      var t := SplitDigits(s[1..]);
      ([s[0]] + t.0, t.1)
    else ([], s)
  }

  /** A numeral followed by a non-digit splits exactly there. */
  lemma {:induction false} SplitDigitsAt(d: string, t: string)
    requires AllDigits(d) && (t != [] ==> !IsDigit(t[0]))
    ensures SplitDigits(d + t) == (d, t)
    decreases |d|
  {
    if d != [] {
      assert (d + t)[1..] == d[1..] + t;
      SplitDigitsAt(d[1..], t);
      assert [d[0]] + d[1..] == d;
    } else {
      assert d + t == t;
    }
  }

  // ---------------------------------------------------------------------
  // The rendered line.

  const Head := "상태: "
  const EndedText := "면접 종료됨"
  const FinishingText := " (마지막 분석 중...)"
  const TalkText := "대화 "
  const RecordingText := " 녹음 중..."
  const AnalyzingText := "번째 대화 분석 중..."
  const OpenText := " ("
  const WaitingText := "개 대기 중)"
  const PreparingText := "번째 대화 분석 준비 중..."
  const IdleText := "대기 중"

  /** The text `updateStatus` writes into the status element for a status. */
  function Render(st: Status): (r: string)
    ensures |Head| <= |r| && r[..|Head|] == Head
    ensures st.Override? ==> r[|Head|..] == st.text
  {
    Head + Body(st)
  }

  /** The part of the line after the head. */
  function Body(st: Status): string {
    match st
    case Override(text) => text
    case Ended(finishing) => EndedText + (if finishing then FinishingText else "")
    case RecordingTurn(n) => TalkText + Decimal(n) + RecordingText
    case AnalyzingTurn(n, w) => Decimal(n) + (AnalyzingText + Waiting(w))
    case Preparing(n) => Decimal(n) + PreparingText
    case Idle => IdleText
  }

  /** The count of waiting segments, shown only when there are any. */
  function Waiting(w: nat): string {
    if w > 0 then OpenText + Decimal(w) + WaitingText else ""
  }

  /** `updateStatus(override)` in a session. */
  function UpdateStatus(s: Session, override: string): (r: string)
    ensures override != "" ==> r == Head + override
  {
    Render(Project(s, override))
  }

  /** Recovers the status from a line that is not an override. */
  function Parse(text: string): Option<Status> {
    if |text| < |Head| || text[..|Head|] != Head then None
    else ParseBody(text[|Head|..])
  }

  function ParseBody(b: string): Option<Status> {
    if b == EndedText then Some(Ended(false))
    else if b == EndedText + FinishingText then Some(Ended(true))
    else if b == IdleText then Some(Idle)
    else if |TalkText| <= |b| && b[..|TalkText|] == TalkText then
      var (d, rest) := SplitDigits(b[|TalkText|..]);
      if d != [] && rest == RecordingText then Some(RecordingTurn(DecimalValue(d))) else None
    else
      var (d, rest) := SplitDigits(b);
      if d == [] then None
      else if rest == PreparingText then Some(Preparing(DecimalValue(d)))
      else if rest == AnalyzingText then Some(AnalyzingTurn(DecimalValue(d), 0))
      else ParseWaiting(DecimalValue(d), rest)
  }

  function ParseWaiting(n: nat, rest: string): Option<Status> {
    var lead := AnalyzingText + OpenText;
    if |rest| < |lead| || rest[..|lead|] != lead then None
    else
      var (w, tail) := SplitDigits(rest[|lead|..]);
      if w != [] && tail == WaitingText && DecimalValue(w) > 0 then Some(AnalyzingTurn(n, DecimalValue(w)))
      else None
  }

  /** Every line except an override reads back as the status it was rendered from. */
  lemma ParseRender(st: Status)
    requires !st.Override?
    ensures Parse(Render(st)) == Some(st)
  {
    var text := Render(st);
    assert text[|Head|..] == Body(st);
    match st {
      case Ended(f) =>
      case Idle =>
      case RecordingTurn(n) => ParseRecording(n);
      case Preparing(n) => ParsePreparing(n);
      case AnalyzingTurn(n, w) => ParseAnalyzing(n, w);
    }
  }

  lemma ParseRecording(n: nat)
    ensures ParseBody(TalkText + Decimal(n) + RecordingText) == Some(RecordingTurn(n))
  {
    var body := TalkText + Decimal(n) + RecordingText;
    assert body[0] == '대' && body[1] == '화';
    assert body != EndedText && body != EndedText + FinishingText && body != IdleText;
    assert body[..|TalkText|] == TalkText;
    assert body[|TalkText|..] == Decimal(n) + RecordingText;
    SplitDigitsAt(Decimal(n), RecordingText);
    DecimalRoundTrip(n);
  }

  /** A body that starts with a numeral is read by what follows the numeral. */
  lemma ParseNumbered(n: nat, rest: string)
    requires rest != [] && !IsDigit(rest[0])
    ensures ParseBody(Decimal(n) + rest) ==
      if rest == PreparingText then Some(Preparing(n))
      else if rest == AnalyzingText then Some(AnalyzingTurn(n, 0))
      else ParseWaiting(n, rest)
  {
    NumberedBody(Decimal(n), rest);
    SplitDigitsAt(Decimal(n), rest);
    DecimalRoundTrip(n);
  }

  lemma ParsePreparing(n: nat)
    ensures ParseBody(Decimal(n) + PreparingText) == Some(Preparing(n))
  {
    ParseNumbered(n, PreparingText);
  }

  lemma ParseAnalyzing(n: nat, w: nat)
    ensures ParseBody(Decimal(n) + (AnalyzingText + Waiting(w))) == Some(AnalyzingTurn(n, w))
  {
    if w == 0 {
      assert AnalyzingText + Waiting(w) == AnalyzingText;
      ParseNumbered(n, AnalyzingText);
    } else {
      var more := Waiting(w);
      NotPreparing(more);
      assert |AnalyzingText + more| > |AnalyzingText|;
      ParseNumbered(n, AnalyzingText + more);
      ParseWaitingOf(n, w);
    }
  }

  /** The analysing text followed by anything is not the preparing text: they differ at the tenth character. */
  lemma NotPreparing(t: string)
    ensures AnalyzingText + t != PreparingText
  {
    assert (AnalyzingText + t)[9] == AnalyzingText[9];
  }

  lemma ParseWaitingOf(n: nat, w: nat)
    requires w > 0
    ensures ParseWaiting(n, AnalyzingText + Waiting(w)) == Some(AnalyzingTurn(n, w))
  {
    var d := Decimal(w);
    var lead := AnalyzingText + OpenText;
    var rest := AnalyzingText + Waiting(w);
    var tail := d + WaitingText;
    assert rest == lead + tail by { ConcatAssoc(AnalyzingText, OpenText, tail); }
    assert rest[..|lead|] == lead && rest[|lead|..] == tail;
    assert SplitDigits(tail) == (d, WaitingText) by { SplitDigitsAt(d, WaitingText); }
    assert DecimalValue(d) == w by { DecimalRoundTrip(w); }
  }

  /** A body that starts with a digit is none of the fixed texts and does not start with "대화 ". */
  lemma NumberedBody(d: string, t: string)
    requires d != [] && AllDigits(d)
    ensures var b := d + t;
      && b != EndedText && b != EndedText + FinishingText && b != IdleText
      && !(|TalkText| <= |b| && b[..|TalkText|] == TalkText)
  {
    var b := d + t;
    assert IsDigit(b[0]);
  }

  /** What the page shows, read back, is the status the session projects to. */
  lemma UpdateStatusReadsBack(s: Session)
    ensures Parse(UpdateStatus(s, "")) == Some(Project(s, ""))
  {
    ParseRender(Project(s, ""));
  }

  // ---------------------------------------------------------------------
  // What the numbers mean.

  /**
   * The number shown while recording is the place the turn being recorded
   * will take in the history: once the analysis is requested and the
   * recorder's audio is pushed, and the server answers every pending
   * request, that turn is the last one, and it answers this recording.
   */
  lemma RecordingTurnIsItsPlace(s: Session, audio: Blob, outcomes: seq<Option<Reply>>)
    requires Inv(s) && !s.ended && s.isRecording && s.recorder.capturing && |audio| > 0
    requires AllSucceed(outcomes) && |outcomes| == |s.inFlight| + |s.queue| + 1
    ensures Project(s, "").RecordingTurn?
    ensures var n := Project(s, "").turn;
      var r := Settle(Run(s, [StartClick, RecorderStopped(audio)]), outcomes);
      && |r.history| == n
      && r.history[n - 1].segment.audio == audio
  {
    var n := Project(s, "").turn;
    var s2 := Run(s, [StartClick, RecorderStopped(audio)]);
    Lifecycle.RequestAnalysisHandsOverTurn(s, audio);
    var segs := s2.inFlight + s2.queue;
    assert segs == s.inFlight + s.queue + [Segment(s.nextId, audio)];
    RunKeepsInv(s, [StartClick, RecorderStopped(audio)]);
    SettleDrainsInOrder(s2, outcomes);
    AllSucceedKeepsEverySegment(segs, outcomes);
    var r := Settle(s2, outcomes);
    assert r.history == s.history + Successes(segs, outcomes);
    assert r.history[n - 1] == Successes(segs, outcomes)[|segs| - 1];
  }

  /**
   * The number shown during an analysis is the place its reply takes in
   * the history, and the number of waiting segments is the length of the
   * queue behind it.
   */
  lemma AnalyzingTurnIsItsPlace(s: Session, reply: Reply)
    requires Inv(s) && Project(s, "").AnalyzingTurn?
    ensures var n := Project(s, "").turn;
      var r := Step(s, AnalysisSettled(0, Some(reply)));
      && |r.history| == n
      && r.history[n - 1] == Turn(s.inFlight[0], reply)
  {
  }

  /**
   * The number shown while a segment waits for the drain is the place the
   * reply to that segment takes in the history: the drain the page has
   * already scheduled sends the head of the queue.
   */
  lemma PreparingTurnIsItsPlace(s: Session, reply: Reply)
    requires Inv(s) && Project(s, "").Preparing?
    ensures var n := Project(s, "").turn;
      var r := Run(s, [DrainTimer, AnalysisSettled(0, Some(reply))]);
      && |r.history| == n
      && r.history[n - 1] == Turn(s.queue[0], reply)
  {
    Lifecycle.RunTwo(s, DrainTimer, AnalysisSettled(0, Some(reply)));
    StepDrain(s);
    StepSettled(TimerFired(s), 0, Some(reply));
    DrainThenReply(s, reply);
  }

  /** The scheduled drain sends the head of the queue, and its reply is appended. */
  lemma DrainThenReply(s: Session, reply: Reply)
    requires OneInFlight(s) && NoStall(s) && !s.isAnalyzing && s.queue != []
    ensures ReplyArrived(TimerFired(s), 0, Some(reply)).history == s.history + [Turn(s.queue[0], reply)]
  {
    var s1 := TimerFired(s);
    assert s1.inFlight == s.inFlight + [s.queue[0]] && s1.history == s.history;
  }

  /**
   * While recording, a failed analysis lowers the shown turn number by one
   * (its segment will never become a turn); a successful one, and the drain
   * that follows either, leave it as it is.
   */
  lemma RecordingTurnAfterReply(s: Session, outcome: Option<Reply>)
    requires Inv(s) && !s.ended && s.isRecording && s.isAnalyzing
    ensures var before := Project(s, "").turn;
      var r := ReplyArrived(s, 0, outcome);
      && Project(r, "").RecordingTurn?
      && Project(r, "").turn == before - (if outcome.None? then 1 else 0)
      && Project(TimerFired(r), "") == Project(r, "")
  {
    ReplyArrivedKeepsInv(s, 0, outcome);
  }
}
