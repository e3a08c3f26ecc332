/**
  The analysis pipeline of the home page (handleVideoUpload), as a reducer
  from the page's snapshot and one asynchronous event to the next snapshot.

  The handler is an async function: between its awaits the page is parked at
  a Phase, and the world resumes it with one of six events (the submission,
  the 5 s display timer firing, the extraction reply or rejection, the
  prediction reply or rejection).  The Trace records, in order, every
  setAnalysisState call, every request the handler starts and the moment the
  result is stored, so that orderings can be stated.
*/
module Pipeline {
  import opened Domain

  const UploadingMessage := "Uploading video..."
  const AnalyzingMessage := "Analyzing gait patterns..."
  const PredictingMessage := "Generating orthotic prescription..."
  const ExtractionFailedPrefix := "Feature extraction failed: "
  const PredictionFailedPrefix := "Prediction failed: "
  const UnknownErrorMessage := "An unknown error occurred"
  /** Minimum time the "uploading" stage is shown, in milliseconds. */
  const DisplayDelayMs := 5000

  /** Body of a successful reply of the extraction service. */
  datatype ExtractionData = ExtractionData(gaitFeatures: GaitFeatures, videoFilename: string, numFrames: int)

  /** Body of a successful reply of the prediction service. */
  datatype PredictionData = PredictionData(predictedLoads: PredictedLoads, orthoticPrescription: OrthoticPrescription)

  /** A thrown value: an Error object carries a message, anything else does not. */
  datatype Thrown = ErrorObject(message: string) | NonError

  /** How the extraction request settled. */
  datatype ExtractionOutcome =
    | Replied(ok: bool, statusText: string, data: ExtractionData)
    | Rejected(thrown: Thrown)

  datatype Event =
    | Submit(file: VideoFile)
    | TimerElapsed
    | ExtractionResponse(ok: bool, statusText: string, data: ExtractionData)
    | ExtractionThrew(thrown: Thrown)
    | PredictionResponse(ok: bool, statusText: string, result: PredictionData)
    | PredictionThrew(thrown: Thrown)

  /** Where handleVideoUpload is suspended. */
  datatype Phase =
    | Settled                                            // not running
    | AwaitingTimer(early: Option<ExtractionOutcome>)    // at the 5 s wait; the extraction may already have settled
    | AwaitingExtraction                                 // at `await extractPromise`
    | AwaitingPrediction(extracted: ExtractionData)      // at `await fetch(predict)`

  /** What the handler did, in order. */
  datatype Effect =
    | StateSet(state: AnalysisState)
    | ExtractionRequested(file: VideoFile)
    | TimerStarted(delayMs: int)
    | PredictionRequested(body: GaitFeatures)
    | ResultSet(result: AnalysisResult)

  /** The page's four state hooks, the handler's suspension point and its trace. */
  datatype Machine = Machine(
    state: AnalysisState,
    result: Option<AnalysisResult>,
    loadingMessage: string,
    errorMessage: string,
    phase: Phase,
    trace: seq<Effect>)

  function Init(): Machine {
    Machine(Idle, None, "", "", Settled, [])
  }

  /** The upload card's isDisabled prop. */
  predicate IsDisabled(s: AnalysisState) {
    s != Idle && s != Error
  }

  /** The message the catch block shows for a thrown value. */
  function ThrownMessage(t: Thrown): string {
    match t
    case ErrorObject(message) => message
    case NonError => UnknownErrorMessage
  }

  function OutcomeOf(e: Event): ExtractionOutcome
    requires e.ExtractionResponse? || e.ExtractionThrew?
  {
    if e.ExtractionResponse? then Replied(e.ok, e.statusText, e.data) else Rejected(e.thrown)
  }

  /** Which events the world can deliver in a snapshot.  A submission is
      only possible when the page enables the upload card and no handler is
      running; every other event resumes the await the handler is parked at. */
  predicate Enabled(m: Machine, e: Event) {
    match e
    case Submit(_) => m.phase.Settled? && !IsDisabled(m.state)
    case TimerElapsed => m.phase.AwaitingTimer?
    case ExtractionResponse(_, _, _) => m.phase == AwaitingTimer(None) || m.phase.AwaitingExtraction?
    case ExtractionThrew(_) => m.phase == AwaitingTimer(None) || m.phase.AwaitingExtraction?
    case PredictionResponse(_, _, _) => m.phase.AwaitingPrediction?
    case PredictionThrew(_) => m.phase.AwaitingPrediction?
  }

  /** The catch block: state becomes error, the message is shown, the result
      and the loading message are left as they were. */
  function Fail(m: Machine, message: string): Machine {
    m.(state := Error, errorMessage := message, phase := Settled, trace := m.trace + [StateSet(Error)])
  }

  /** The handler once `await extractPromise` has returned or thrown. */
  function Inspect(m: Machine, outcome: ExtractionOutcome): Machine {
    match outcome
    case Rejected(t) => Fail(m, ThrownMessage(t))
    case Replied(ok, statusText, data) =>
      if !ok then Fail(m, ExtractionFailedPrefix + statusText)
      else m.(state := Predicting, loadingMessage := PredictingMessage, phase := AwaitingPrediction(data),
              trace := m.trace + [StateSet(Predicting), PredictionRequested(data.gaitFeatures)])
  }

  /** The result stored once both services have answered. */
  function Merge(x: ExtractionData, p: PredictionData): AnalysisResult {
    AnalysisResult(x.gaitFeatures, p.predictedLoads, p.orthoticPrescription, x.videoFilename, x.numFrames)
  }

  /** One resumption of handleVideoUpload. */
  function Step(m: Machine, e: Event): Machine
    requires Enabled(m, e)
  {
    match e
    case Submit(file) =>
      m.(state := Uploading, loadingMessage := UploadingMessage, phase := AwaitingTimer(None),
         trace := m.trace + [StateSet(Uploading), ExtractionRequested(file), TimerStarted(DisplayDelayMs)])
    case TimerElapsed =>
      var entered := m.(state := Extracting, loadingMessage := AnalyzingMessage, phase := AwaitingExtraction,
                        trace := m.trace + [StateSet(Extracting)]);
      if m.phase.early.Some? then Inspect(entered, m.phase.early.value) else entered
    case ExtractionResponse(_, _, _) =>
      if m.phase.AwaitingTimer? then m.(phase := AwaitingTimer(Some(OutcomeOf(e)))) else Inspect(m, OutcomeOf(e))
    case ExtractionThrew(_) =>
      if m.phase.AwaitingTimer? then m.(phase := AwaitingTimer(Some(OutcomeOf(e)))) else Inspect(m, OutcomeOf(e))
    case PredictionResponse(ok, statusText, p) =>
      if !ok then Fail(m, PredictionFailedPrefix + statusText)
      else
        var r := Merge(m.phase.extracted, p);
        m.(state := Completed, result := Some(r), loadingMessage := "", phase := Settled,
           trace := m.trace + [ResultSet(r), StateSet(Completed)])
    case PredictionThrew(t) => Fail(m, ThrownMessage(t))
  }

  /** Every event of a sequence is deliverable when its turn comes. */
  predicate Admissible(m: Machine, es: seq<Event>)
    decreases |es|
  {
    es == [] || (Enabled(m, es[0]) && Admissible(Step(m, es[0]), es[1..]))
  }

  function Run(m: Machine, es: seq<Event>): Machine
    requires Admissible(m, es)
    decreases |es|
  {
    if es == [] then m else Run(Step(m, es[0]), es[1..])
  }

  // ---------------------------------------------------------------------------
  // The history of analysisState

  /** The successive values given to analysisState. */
  function StatesOf(trace: seq<Effect>): seq<AnalysisState> {
    if trace == [] then []
    else StateOf(trace[0]) + StatesOf(trace[1..])
  }

  function StateOf(e: Effect): seq<AnalysisState> {
    if e.StateSet? then [e.state] else []
  }

  /** The transitions the pipeline may take from one state to the next. */
  predicate Allowed(a: AnalysisState, b: AnalysisState) {
    || (a == Uploading && b == Extracting)
    || (a == Extracting && (b == Predicting || b == Error))
    || (a == Predicting && (b == Completed || b == Error))
    || (a == Error && b == Uploading)
  }

  predicate Chain(ss: seq<AnalysisState>) {
    forall i :: 1 <= i < |ss| ==> Allowed(ss[i - 1], ss[i])
  }

  /** The history starts with a submission, follows Allowed and ends in the current state. */
  predicate HistoryFits(m: Machine) {
    var ss := StatesOf(m.trace);
    if ss == [] then m.state == Idle
    else ss[0] == Uploading && ss[|ss| - 1] == m.state && Chain(ss)
  }

  /** The invariant of the page's snapshot. */
  predicate Valid(m: Machine) {
    && (match m.phase
        case Settled => m.state == Idle || m.state == Completed || m.state == Error
        case AwaitingTimer(_) => m.state == Uploading && m.loadingMessage == UploadingMessage
        case AwaitingExtraction => m.state == Extracting && m.loadingMessage == AnalyzingMessage
        case AwaitingPrediction(x) =>
          && m.state == Predicting && m.loadingMessage == PredictingMessage
          && m.trace != [] && m.trace[|m.trace| - 1] == PredictionRequested(x.gaitFeatures))
    && (m.result.Some? <==> m.state == Completed)
    && (m.state == Completed ==>
          && m.loadingMessage == ""
          && |m.trace| >= 2
          && m.trace[|m.trace| - 2..] == [ResultSet(m.result.value), StateSet(Completed)])
    && HistoryFits(m)
  }

  lemma {:induction false} StatesOfAppend(a: seq<Effect>, b: seq<Effect>)
    ensures StatesOf(a + b) == StatesOf(a) + StatesOf(b)
    decreases |a|
  {
    if a == [] {
      assert a + b == b;
    } else {
      assert (a + b)[0] == a[0];
      assert (a + b)[1..] == a[1..] + b;
      StatesOfAppend(a[1..], b);
      calc {
        StatesOf(a + b);
        StateOf(a[0]) + StatesOf(a[1..] + b);
        StateOf(a[0]) + (StatesOf(a[1..]) + StatesOf(b));
        (StateOf(a[0]) + StatesOf(a[1..])) + StatesOf(b);
      }
    }
  }

  lemma StatesOfPair(a: Effect, b: Effect)
    ensures StatesOf([a, b]) == StatesOf([a]) + StatesOf([b])
  {
    assert [a, b] == [a] + [b];
    StatesOfAppend([a], [b]);
  }

  /** Appending effects whose states continue the chain keeps the history fitting. */
  lemma ExtendHistory(m: Machine, added: seq<Effect>, s: AnalysisState)
    requires HistoryFits(m)
    requires StatesOf(added) == [s]
    requires if StatesOf(m.trace) == [] then s == Uploading else Allowed(m.state, s)
    ensures HistoryFits(m.(state := s, trace := m.trace + added))
  {
    StatesOfAppend(m.trace, added);
    var ss := StatesOf(m.trace);
    var ss' := ss + [s];
    assert StatesOf(m.trace + added) == ss';
    forall i | 1 <= i < |ss'| ensures Allowed(ss'[i - 1], ss'[i]) {
      if i < |ss| { assert ss'[i - 1] == ss[i - 1] && ss'[i] == ss[i]; }
    }
  }

  /** The catch block keeps the snapshot valid when reached from a running stage. */
  lemma FailPreservesValid(m: Machine, message: string)
    requires Valid(m) && (m.state == Extracting || m.state == Predicting)
    ensures Valid(Fail(m, message))
  {
    assert StatesOf([StateSet(Error)]) == [Error];
    ExtendHistory(m, [StateSet(Error)], Error);
    assert Fail(m, message) == m.(state := Error, trace := m.trace + [StateSet(Error)]).(errorMessage := message, phase := Settled);
  }

  lemma InspectPreservesValid(m: Machine, outcome: ExtractionOutcome)
    requires Valid(m) && m.phase.AwaitingExtraction?
    ensures Valid(Inspect(m, outcome))
  {
    if outcome.Rejected? {
      FailPreservesValid(m, ThrownMessage(outcome.thrown));
    } else if !outcome.ok {
      FailPreservesValid(m, ExtractionFailedPrefix + outcome.statusText);
    } else {
      var added := [StateSet(Predicting), PredictionRequested(outcome.data.gaitFeatures)];
      StatesOfPair(StateSet(Predicting), PredictionRequested(outcome.data.gaitFeatures));
      ExtendHistory(m, added, Predicting);
      assert Inspect(m, outcome) == m.(state := Predicting, trace := m.trace + added).(loadingMessage := PredictingMessage, phase := AwaitingPrediction(outcome.data));
    }
  }

  lemma SubmitPreservesValid(m: Machine, file: VideoFile)
    requires Valid(m) && Enabled(m, Submit(file))
    ensures Valid(Step(m, Submit(file)))
  {
    var added := [StateSet(Uploading), ExtractionRequested(file), TimerStarted(DisplayDelayMs)];
    StatesOfPair(ExtractionRequested(file), TimerStarted(DisplayDelayMs));
    StatesOfAppend([StateSet(Uploading)], [ExtractionRequested(file), TimerStarted(DisplayDelayMs)]);
    assert added == [StateSet(Uploading)] + [ExtractionRequested(file), TimerStarted(DisplayDelayMs)];
    var ss := StatesOf(m.trace);
    if |ss| > 1 {
      assert Allowed(ss[|ss| - 2], ss[|ss| - 1]);
    }
    ExtendHistory(m, added, Uploading);
    assert Step(m, Submit(file)) == m.(state := Uploading, trace := m.trace + added).(loadingMessage := UploadingMessage, phase := AwaitingTimer(None));
  }

  lemma TimerPreservesValid(m: Machine)
    requires Valid(m) && Enabled(m, TimerElapsed)
    ensures Valid(Step(m, TimerElapsed))
  {
    var entered := m.(state := Extracting, loadingMessage := AnalyzingMessage, phase := AwaitingExtraction,
                      trace := m.trace + [StateSet(Extracting)]);
    assert StatesOf([StateSet(Extracting)]) == [Extracting];
    ExtendHistory(m, [StateSet(Extracting)], Extracting);
    assert entered == m.(state := Extracting, trace := m.trace + [StateSet(Extracting)]).(loadingMessage := AnalyzingMessage, phase := AwaitingExtraction);
    if m.phase.early.Some? {
      InspectPreservesValid(entered, m.phase.early.value);
    }
  }

  lemma CompletePreservesValid(m: Machine, statusText: string, p: PredictionData)
    requires Valid(m) && m.phase.AwaitingPrediction?
    ensures Valid(Step(m, PredictionResponse(true, statusText, p)))
  {
    var r := Merge(m.phase.extracted, p);
    var added := [ResultSet(r), StateSet(Completed)];
    StatesOfPair(ResultSet(r), StateSet(Completed));
    ExtendHistory(m, added, Completed);
    assert Step(m, PredictionResponse(true, statusText, p))
        == m.(state := Completed, trace := m.trace + added).(result := Some(r), loadingMessage := "", phase := Settled);
  }

  /** Every resumption keeps the snapshot valid. */
  lemma StepPreservesValid(m: Machine, e: Event)
    requires Valid(m) && Enabled(m, e)
    ensures Valid(Step(m, e))
  {
    match e
    case Submit(file) => SubmitPreservesValid(m, file);
    case TimerElapsed => TimerPreservesValid(m);
    case ExtractionResponse(_, _, _) =>
      if m.phase.AwaitingExtraction? { InspectPreservesValid(m, OutcomeOf(e)); }
    case ExtractionThrew(_) =>
      if m.phase.AwaitingExtraction? { InspectPreservesValid(m, OutcomeOf(e)); }
    case PredictionResponse(ok, statusText, p) =>
      if ok { CompletePreservesValid(m, statusText, p); }
      else { FailPreservesValid(m, PredictionFailedPrefix + statusText); }
    case PredictionThrew(t) => FailPreservesValid(m, ThrownMessage(t));
  }

  lemma {:induction false} RunPreservesValid(m: Machine, es: seq<Event>)
    requires Valid(m) && Admissible(m, es)
    ensures Valid(Run(m, es))
    decreases |es|
  {
    if es != [] {
      StepPreservesValid(m, es[0]);
      RunPreservesValid(Step(m, es[0]), es[1..]);
    }
  }

  // ---------------------------------------------------------------------------
  // Properties of the pipeline

  /** In a valid snapshot the history of analysisState only moves forward
      along the pipeline: extracting always follows uploading, predicting
      always follows extracting, completed always follows predicting and is
      never left, and an error only interrupts extracting or predicting. */
  lemma HistoryOrdering(m: Machine)
    requires Valid(m)
    ensures var ss := StatesOf(m.trace);
      && (ss == [] <==> m.state == Idle)
      && (ss != [] ==> ss[0] == Uploading && ss[|ss| - 1] == m.state)
      && (forall i :: 1 <= i < |ss| && ss[i] == Extracting ==> ss[i - 1] == Uploading)
      && (forall i :: 1 <= i < |ss| && ss[i] == Predicting ==> ss[i - 1] == Extracting)
      && (forall i :: 1 <= i < |ss| && ss[i] == Completed ==> ss[i - 1] == Predicting)
      && (forall i :: 1 <= i < |ss| && ss[i] == Error ==> ss[i - 1] == Extracting || ss[i - 1] == Predicting)
      && (forall i :: 0 <= i < |ss| - 1 ==> ss[i] != Completed)
  {
    var ss := StatesOf(m.trace);
    if |ss| > 1 {
      assert Allowed(ss[|ss| - 2], ss[|ss| - 1]);
    }
    forall i | 0 <= i < |ss| - 1 ensures ss[i] != Completed {
      assert Allowed(ss[i], ss[i + 1]);
    }
  }

  /** From the page's initial snapshot, every admissible run of events keeps
      the invariant, and so the ordering of HistoryOrdering. */
  lemma RunFromInit(es: seq<Event>)
    requires Admissible(Init(), es)
    ensures Valid(Run(Init(), es))
  {
    assert StatesOf([]) == [];
    RunPreservesValid(Init(), es);
  }

  /** Submit shows "uploading" and starts the extraction request before the
      5 s timer; nothing else about the page changes. */
  lemma SubmitStartsRequestThenTimer(m: Machine, file: VideoFile)
    requires Valid(m) && Enabled(m, Submit(file))
    ensures var r := Step(m, Submit(file));
      && r.state == Uploading && r.loadingMessage == "Uploading video..."
      && r.trace == m.trace + [StateSet(Uploading), ExtractionRequested(file), TimerStarted(5000)]
      && r.result == m.result == None && r.errorMessage == m.errorMessage
  {
  }

  /** While the timer is pending nothing the extraction service does is
      visible: its reply or rejection is only held. */
  lemma ReplyHeldUntilTimer(m: Machine, e: Event)
    requires Enabled(m, e) && m.phase.AwaitingTimer? && !e.TimerElapsed?
    ensures e.ExtractionResponse? || e.ExtractionThrew?
    ensures var r := Step(m, e);
      && r.phase == AwaitingTimer(Some(OutcomeOf(e)))
      && r.(phase := m.phase) == m
  {
  }

  /** Whether the extraction settles before or after the timer, the page
      ends in the same snapshot. */
  lemma ReplyOrderIrrelevant(m: Machine, e: Event)
    requires m.phase == AwaitingTimer(None) && (e.ExtractionResponse? || e.ExtractionThrew?)
    ensures Enabled(Step(m, e), TimerElapsed) && Enabled(Step(m, TimerElapsed), e)
    ensures Step(Step(m, e), TimerElapsed) == Step(Step(m, TimerElapsed), e)
  {
  }

  /** analysisState becomes extracting only when the timer fires. */
  lemma ExtractingOnlyOnTimer(m: Machine, e: Event)
    requires Valid(m) && Enabled(m, e)
    requires StateSet(Extracting) in Step(m, e).trace[|m.trace|..]
    ensures e.TimerElapsed? && m.state == Uploading
    ensures Step(m, e).trace[|m.trace|] == StateSet(Extracting)
  {
  }

  /** A failed extraction reply inspected after the timer ends in error with
      a message naming its status text; predicting is never entered, and the
      result and loading message are left as they were. */
  lemma ExtractionFailure(m: Machine, statusText: string, data: ExtractionData)
    requires Valid(m) && m.phase.AwaitingExtraction?
    ensures var r := Step(m, ExtractionResponse(false, statusText, data));
      && r.state == Error
      && r.errorMessage == "Feature extraction failed: " + statusText
      && r.trace == m.trace + [StateSet(Error)]
      && r.result == m.result && r.loadingMessage == m.loadingMessage
  {
  }

  /** A failed extraction reply that arrives before the timer is reported
      only after extracting has been shown. */
  lemma EarlyExtractionFailure(m: Machine, statusText: string, data: ExtractionData)
    requires Valid(m) && m.phase == AwaitingTimer(None)
    ensures Enabled(Step(m, ExtractionResponse(false, statusText, data)), TimerElapsed)
    ensures var r := Step(Step(m, ExtractionResponse(false, statusText, data)), TimerElapsed);
      && r.state == Error
      && r.errorMessage == "Feature extraction failed: " + statusText
      && r.trace == m.trace + [StateSet(Extracting), StateSet(Error)]
      && r.result == m.result && r.loadingMessage == "Analyzing gait patterns..."
  {
  }

  /** Predicting is entered only from a successful extraction reply, and the
      prediction request sent at that moment carries exactly that reply's
      gait features. */
  lemma PredictingOnlyAfterGoodExtraction(m: Machine, e: Event)
    requires Valid(m) && Enabled(m, e)
    requires m.state != Predicting && Step(m, e).state == Predicting
    ensures var o := if e.TimerElapsed? then m.phase.early.value else OutcomeOf(e);
      && (e.TimerElapsed? ==> m.phase.early.Some?)
      && (e.TimerElapsed? || e.ExtractionResponse?)
      && o.Replied? && o.ok
      && Step(m, e).phase == AwaitingPrediction(o.data)
      && Step(m, e).trace[|Step(m, e).trace| - 2..] == [StateSet(Predicting), PredictionRequested(o.data.gaitFeatures)]
  {
  }

  /** An ok extraction reply inspected after the timer enters predicting
      with its stage message and sends the prediction request whose body is
      exactly the reply's gait features; nothing else is shown or sent. */
  lemma GoodExtractionStartsPrediction(m: Machine, statusText: string, data: ExtractionData)
    requires Valid(m) && m.phase.AwaitingExtraction?
    ensures var r := Step(m, ExtractionResponse(true, statusText, data));
      && r.state == Predicting
      && r.loadingMessage == "Generating orthotic prescription..."
      && r.phase == AwaitingPrediction(data)
      && r.trace == m.trace + [StateSet(Predicting), PredictionRequested(data.gaitFeatures)]
      && r.result == m.result && r.errorMessage == m.errorMessage
  {
  }

  /** An ok extraction reply that arrived before the timer is acted on when
      the timer fires: extracting is shown, then predicting is entered and the
      prediction request carries the held reply's gait features. */
  lemma HeldGoodExtractionStartsPrediction(m: Machine, statusText: string, data: ExtractionData)
    requires Valid(m) && m.phase == AwaitingTimer(Some(Replied(true, statusText, data)))
    ensures var r := Step(m, TimerElapsed);
      && r.state == Predicting
      && r.loadingMessage == "Generating orthotic prescription..."
      && r.phase == AwaitingPrediction(data)
      && r.trace == m.trace + [StateSet(Extracting), StateSet(Predicting), PredictionRequested(data.gaitFeatures)]
      && r.result == m.result && r.errorMessage == m.errorMessage
  {
  }

  /** A failed prediction reply ends in error with a message naming its
      status text, leaving the result and the loading message alone. */
  lemma PredictionFailure(m: Machine, statusText: string, p: PredictionData)
    requires Valid(m) && Enabled(m, PredictionResponse(false, statusText, p))
    ensures var r := Step(m, PredictionResponse(false, statusText, p));
      && r.state == Error && m.state == Predicting
      && r.errorMessage == "Prediction failed: " + statusText
      && r.result == m.result == None && r.loadingMessage == m.loadingMessage
  {
  }

  /** A thrown value ends in error with its message, or the generic message
      when it is not an Error object. */
  lemma ThrownValueMessage(m: Machine, e: Event)
    requires Valid(m) && Enabled(m, e) && (e.ExtractionThrew? || e.PredictionThrew?)
    requires !m.phase.AwaitingTimer?
    ensures var r := Step(m, e);
      && r.state == Error && r.phase.Settled?
      && (e.thrown.ErrorObject? ==> r.errorMessage == e.thrown.message)
      && (e.thrown.NonError? ==> r.errorMessage == "An unknown error occurred")
      && r.result == m.result && r.loadingMessage == m.loadingMessage
  {
  }

  /** On success the result takes the features, file name and frame count
      from the extraction reply and the loads and prescription from the
      prediction reply; the features are the very body that was sent to the
      prediction service; the result is stored before the state becomes
      completed, and the loading message is cleared. */
  lemma SuccessMergesReplies(m: Machine, statusText: string, p: PredictionData)
    requires Valid(m) && Enabled(m, PredictionResponse(true, statusText, p))
    ensures var x := m.phase.extracted;
      var r := Step(m, PredictionResponse(true, statusText, p));
      && r.state == Completed && r.result.Some? && r.loadingMessage == ""
      && r.result.value.gaitFeatures == x.gaitFeatures
      && r.result.value.videoFilename == x.videoFilename
      && r.result.value.numFrames == x.numFrames
      && r.result.value.predictedLoads == p.predictedLoads
      && r.result.value.orthoticPrescription == p.orthoticPrescription
      && m.trace[|m.trace| - 1] == PredictionRequested(r.result.value.gaitFeatures)
      && r.trace == m.trace + [ResultSet(r.result.value), StateSet(Completed)]
  {
  }

  /** The upload card is enabled exactly in idle and error. */
  lemma SubmitOnlyFromIdleOrError(m: Machine, file: VideoFile)
    ensures Enabled(m, Submit(file)) ==> m.state == Idle || m.state == Error
    ensures m.phase.Settled? && (m.state == Idle || m.state == Error) ==> Enabled(m, Submit(file))
    ensures IsDisabled(m.state) <==> m.state in {Uploading, Extracting, Predicting, Completed}
  {
  }

  /** Once completed, the page accepts no event at all: the card is disabled
      and no handler is running. */
  lemma CompletedIsFinal(m: Machine, e: Event)
    requires Valid(m) && m.state == Completed
    ensures !Enabled(m, e)
  {
  }
}
