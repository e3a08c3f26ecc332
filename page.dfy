/**
  The home page as an object: its four state hooks are fields, and
  handleVideoUpload is cut at its awaits into one method per resumption.
  Each method updates the fields statement by statement, as the handler does,
  and is proved to produce the snapshot the reducer Pipeline.Step describes.
*/
module Home {
  import opened Domain
  import opened Pipeline

  class AnalysisPage {
    var analysisState: AnalysisState
    var analysisResult: Option<AnalysisResult>
    var loadingMessage: string
    var errorMessage: string
    /** The await at which handleVideoUpload is parked. */
    var phase: Phase
    /** What the handler has done so far, in order. */
    ghost var trace: seq<Effect>

    ghost function Snapshot(): Machine
      reads this
    {
      Machine(analysisState, analysisResult, loadingMessage, errorMessage, phase, trace)
    }

    constructor ()
      ensures Snapshot() == Init()
    {
      analysisState := Idle;
      analysisResult := None;
      loadingMessage := "";
      errorMessage := "";
      phase := Settled;
      trace := [];
    }

    /** setAnalysisState */
    method SetAnalysisState(s: AnalysisState)
      modifies this
      ensures Snapshot() == old(Snapshot()).(state := s, trace := old(trace) + [StateSet(s)])
    {
      analysisState := s;
      trace := trace + [StateSet(s)];
    }

    /** The catch block. */
    method Catch(message: string)
      modifies this
      ensures Snapshot() == Fail(old(Snapshot()), message)
    {
      SetAnalysisState(Error);
      errorMessage := message;
      phase := Settled;
    }

    /** The part of the handler after `await extractPromise`. */
    method InspectExtraction(outcome: ExtractionOutcome)
      modifies this
      ensures Snapshot() == Inspect(old(Snapshot()), outcome)
    {
      match outcome
      case Rejected(t) =>
        Catch(ThrownMessage(t));
      case Replied(ok, statusText, data) =>
        if !ok {
          Catch(ExtractionFailedPrefix + statusText);
          return;
        }
        SetAnalysisState(Predicting);
        loadingMessage := PredictingMessage;
        trace := trace + [PredictionRequested(data.gaitFeatures)];
        phase := AwaitingPrediction(data);
    }

    /** The user starts an analysis: the handler runs up to the 5 s wait. */
    method OnSubmit(file: VideoFile)
      requires Enabled(Snapshot(), Submit(file))
      modifies this
      ensures Snapshot() == Step(old(Snapshot()), Submit(file))
    {
      SetAnalysisState(Uploading);
      loadingMessage := UploadingMessage;
      trace := trace + [ExtractionRequested(file)];
      trace := trace + [TimerStarted(DisplayDelayMs)];
      phase := AwaitingTimer(None);
    }

    /** The 5 s wait is over: show extracting, then inspect the extraction if it has settled. */
    method OnTimerElapsed()
      requires Enabled(Snapshot(), TimerElapsed)
      modifies this
      ensures Snapshot() == Step(old(Snapshot()), TimerElapsed)
    {
      var early := phase.early;
      SetAnalysisState(Extracting);
      loadingMessage := AnalyzingMessage;
      phase := AwaitingExtraction;
      if early.Some? {
        InspectExtraction(early.value);
      }
    }

    /** The extraction service answers. */
    method OnExtractionResponse(ok: bool, statusText: string, data: ExtractionData)
      requires Enabled(Snapshot(), ExtractionResponse(ok, statusText, data))
      modifies this
      ensures Snapshot() == Step(old(Snapshot()), ExtractionResponse(ok, statusText, data))
    {
      if phase.AwaitingTimer? {
        phase := AwaitingTimer(Some(Replied(ok, statusText, data)));
      } else {
        InspectExtraction(Replied(ok, statusText, data));
      }
    }

    /** The extraction request fails in transport. */
    method OnExtractionThrew(thrown: Thrown)
      requires Enabled(Snapshot(), ExtractionThrew(thrown))
      modifies this
      ensures Snapshot() == Step(old(Snapshot()), ExtractionThrew(thrown))
    {
      if phase.AwaitingTimer? {
        phase := AwaitingTimer(Some(Rejected(thrown)));
      } else {
        InspectExtraction(Rejected(thrown));
      }
    }

    /** The prediction service answers. */
    method OnPredictionResponse(ok: bool, statusText: string, p: PredictionData)
      requires Enabled(Snapshot(), PredictionResponse(ok, statusText, p))
      modifies this
      ensures Snapshot() == Step(old(Snapshot()), PredictionResponse(ok, statusText, p))
    {
      if !ok {
        Catch(PredictionFailedPrefix + statusText);
        return;
      }
      var x := phase.extracted;
      var result := AnalysisResult(x.gaitFeatures, p.predictedLoads, p.orthoticPrescription, x.videoFilename, x.numFrames);
      analysisResult := Some(result);
      trace := trace + [ResultSet(result)];
      SetAnalysisState(Completed);
      loadingMessage := "";
      phase := Settled;
    }

    /** The prediction request fails in transport. */
    method OnPredictionThrew(thrown: Thrown)
      requires Enabled(Snapshot(), PredictionThrew(thrown))
      modifies this
      ensures Snapshot() == Step(old(Snapshot()), PredictionThrew(thrown))
    {
      Catch(ThrownMessage(thrown));
    }
  }
}
