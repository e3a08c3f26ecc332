/**
  The home page wires the pipeline to the two cards: the upload card is
  disabled while an analysis runs or has completed, and the result card
  renders the pipeline's four state hooks.  These lemmas connect what the
  pipeline keeps invariant with what the cards then show.
*/
module App {
  import opened Domain
  import opened Pipeline
  import opened ResultCard
  import opened UploadCard

  /** The panels the result card shows for a snapshot of the page. */
  function PagePanels(m: Machine): seq<Panel> {
    Panels(m.state, m.result, m.loadingMessage, m.errorMessage)
  }

  /** A completed page always has its result, so the card shows the result
      panel, whose heatmap receives the predicted loads of that result. */
  lemma CompletedPageShowsResult(m: Machine)
    requires Valid(m) && m.state == Completed
    ensures m.result.Some?
    ensures PagePanels(m) == [ResultPanel(ViewOf(m.result.value))]
    ensures PagePanels(m)[0].view.heatmapLoads == m.result.value.predictedLoads
  {
  }

  /** While the pipeline runs the loading message is never empty, so the
      card's "Processing..." fallback is never shown and its headline is the
      stage message the handler set. */
  lemma LoadingHeadlineIsStageMessage(m: Machine)
    requires Valid(m) && ShowsLoading(m.state)
    ensures m.loadingMessage in {UploadingMessage, AnalyzingMessage, PredictingMessage}
    ensures Headline(m.loadingMessage) == m.loadingMessage
  {
    match m.phase
    case Settled =>
    case AwaitingTimer(_) =>
    case AwaitingExtraction =>
    case AwaitingPrediction(_) =>
  }

  /** A step of the handler never moves the progress bar backwards. */
  lemma ProgressNeverRegresses(m: Machine, e: Event)
    requires Valid(m) && Enabled(m, e)
    requires ShowsLoading(m.state) && ShowsLoading(Step(m, e).state)
    ensures ProgressPercent(m.state) <= ProgressPercent(Step(m, e).state)
  {
    match e
    case Submit(_) =>
    case TimerElapsed =>
      assert m.state == Uploading;
    case ExtractionResponse(_, _, _) =>
    case ExtractionThrew(_) =>
    case PredictionResponse(_, _, _) =>
    case PredictionThrew(_) =>
  }

  /** The upload button is usable only when no analysis is running and none
      has completed. */
  lemma UploadOnlyWhenIdleOrFailed(m: Machine, selected: Option<VideoFile>)
    requires UploadEnabled(selected, IsDisabled(m.state))
    ensures m.state == Idle || m.state == Error
    ensures selected.Some?
  {
  }

  /** A rejected extraction reply ends on the error panel carrying
      "Feature extraction failed: " and the status text. */
  lemma ExtractionFailureShown(m: Machine, statusText: string, data: ExtractionData)
    requires Valid(m) && m.phase.AwaitingExtraction?
    ensures PagePanels(Step(m, ExtractionResponse(false, statusText, data)))
         == [ErrorPanel(ExtractionFailedPrefix + statusText)]
  {
  }
}
