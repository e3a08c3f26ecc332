/**
  AnalysisResultCard: what the card shows for a pipeline state, a result,
  a loading message and an error message.  Every map here is total and
  pure; number formatting (toFixed) is not modelled, so values are shown
  as the reals they are.
*/
module ResultCard {
  import opened Domain

  /** The card description under the title, one text per state. */
  function Description(state: AnalysisState): (d: string)
    ensures d != ""
  {
    match state
    case Idle => "Awaiting video upload"
    case Uploading => "Uploading video..."
    case Extracting => "Extracting gait features..."
    case Predicting => "Generating prescription..."
    case Completed => "Analysis complete"
    case Error => "Analysis failed"
  }

  /** Reading the state back from the description. */
  function DescribedState(d: string): Option<AnalysisState> {
    if d == "Awaiting video upload" then Some(Idle)
    else if d == "Uploading video..." then Some(Uploading)
    else if d == "Extracting gait features..." then Some(Extracting)
    else if d == "Generating prescription..." then Some(Predicting)
    else if d == "Analysis complete" then Some(Completed)
    else if d == "Analysis failed" then Some(Error)
    else None
  }

  /** The description names its state and no other. */
  lemma DescriptionRoundTrip(s: AnalysisState)
    ensures DescribedState(Description(s)) == Some(s)
  {
  }

  /** Different states are described differently. */
  lemma DescriptionInjective(s: AnalysisState, t: AnalysisState)
    requires Description(s) == Description(t)
    ensures s == t
  {
    DescriptionRoundTrip(s);
    DescriptionRoundTrip(t);
  }

  /** The three in-flight states, in which the loading panel is shown. */
  predicate ShowsLoading(state: AnalysisState) {
    state == Uploading || state == Extracting || state == Predicting
  }

  /** The loading headline: the loading message, or "Processing..." when it
      is empty (an empty string is falsy for `||`). */
  function Headline(loadingMessage: string): (h: string)
    ensures h != ""
    ensures loadingMessage != "" ==> h == loadingMessage
    ensures h == loadingMessage || h == "Processing..."
  {
    if loadingMessage != "" then loadingMessage else "Processing..."
  }

  /** The small line under the headline; nothing outside the loading states. */
  function StageHint(state: AnalysisState): (hint: string)
    ensures hint != "" <==> ShowsLoading(state)
  {
    match state
    case Uploading => "Transferring video to server"
    case Extracting => "Analyzing biomechanical data"
    case Predicting => "Computing orthotic specifications"
    case _ => ""
  }

  /** The width of the progress bar, in percent. */
  function ProgressPercent(state: AnalysisState): (p: nat)
    ensures 0 < p <= 100
    ensures p == 100 <==> !ShowsLoading(state)
  {
    if state == Uploading then 25
    else if state == Extracting then 50
    else if state == Predicting then 75
    else 100
  }

  /** Position of a state along the successful pipeline.  Error is not on
      that path; it is ranked with idle, where a new submission starts. */
  function PipelineRank(state: AnalysisState): nat {
    match state
    case Idle => 0
    case Uploading => 1
    case Extracting => 2
    case Predicting => 3
    case Completed => 4
    case Error => 0
  }

  /** Along uploading, extracting, predicting the bar grows strictly, and it
      is full once the pipeline has completed. */
  lemma ProgressMonotone(s: AnalysisState, t: AnalysisState)
    requires s != Idle && s != Error && t != Idle && t != Error
    ensures PipelineRank(s) < PipelineRank(t) ==> ProgressPercent(s) < ProgressPercent(t)
    ensures ProgressPercent(s) == PipelineRank(s) * 25
  {
  }

  // ---------------------------------------------------------------------------
  // The completed view

  datatype Row = Row(component: string, valueMm: real)

  /** The prescription table: the six components, from the rearfoot medial
      post to the heel cushion. */
  function PrescriptionRows(p: OrthoticPrescription): (rows: seq<Row>)
    ensures |rows| == 6
    ensures forall i, j :: 0 <= i < j < 6 ==> rows[i].component != rows[j].component
    ensures [rows[0].component, rows[1].component, rows[2].component,
             rows[3].component, rows[4].component, rows[5].component]
         == ["Rearfoot Medial Post", "Rearfoot Lateral Post", "Forefoot Lateral Wedge",
             "Forefoot Medial Wedge", "Arch Support", "Heel Cushion"]
  {
    [Row("Rearfoot Medial Post", p.rearfootMedialPostMm),
     Row("Rearfoot Lateral Post", p.rearfootLateralPostMm),
     Row("Forefoot Lateral Wedge", p.forefootLateralWedgeMm),
     Row("Forefoot Medial Wedge", p.forefootMedialWedgeMm),
     Row("Arch Support", p.archSupportMm),
     Row("Heel Cushion", p.heelCushionMm)]
  }

  /** Reading the table back: the value column, row by row. */
  function PrescriptionOf(rows: seq<Row>): OrthoticPrescription
    requires |rows| == 6
  {
    OrthoticPrescription(rows[0].valueMm, rows[1].valueMm, rows[2].valueMm,
                         rows[3].valueMm, rows[4].valueMm, rows[5].valueMm)
  }

  /** The table shows every component of the prescription and nothing else. */
  lemma PrescriptionRoundTrip(p: OrthoticPrescription)
    ensures PrescriptionOf(PrescriptionRows(p)) == p
  {
  }

  datatype Metric = Metric(name: string, value: real, unit: string)

  /** The key gait metrics; the stance ratio is shown as a percentage. */
  function Metrics(f: GaitFeatures): (ms: seq<Metric>)
    ensures |ms| == 4
    ensures ms[1].value == f.stanceRatio * 100.0 && ms[1].unit == "%"
    ensures ms[0].value == f.cadence && ms[2].value == f.meanStepHeight && ms[3].value == f.ankleAngleRange
  {
    [Metric("Cadence", f.cadence, "steps/min"),
     Metric("Stance Ratio", f.stanceRatio * 100.0, "%"),
     Metric("Mean Step Height", f.meanStepHeight, "m"),
     Metric("Ankle Angle Range", f.ankleAngleRange, "°")]
  }

  /** What the completed branch shows: the heatmap of the predicted loads,
      the frame count, the prescription table and the metrics. */
  datatype ResultView = ResultView(heatmapLoads: PredictedLoads, framesAnalyzed: int, rows: seq<Row>, metrics: seq<Metric>)

  function ViewOf(r: AnalysisResult): (v: ResultView)
    ensures v.heatmapLoads == r.predictedLoads
    ensures v.framesAnalyzed == r.numFrames
    ensures |v.rows| == 6 && PrescriptionOf(v.rows) == r.orthoticPrescription
    ensures v.metrics == Metrics(r.gaitFeatures)
  {
    PrescriptionRoundTrip(r.orthoticPrescription);
    ResultView(r.predictedLoads, r.numFrames, PrescriptionRows(r.orthoticPrescription), Metrics(r.gaitFeatures))
  }

  // ---------------------------------------------------------------------------
  // The card body

  datatype Panel =
    | IdlePanel
    | LoadingPanel(headline: string, hint: string, percent: nat)
    | ErrorPanel(message: string)
    | ResultPanel(view: ResultView)

  /** The card body: the four guarded blocks in the order they appear, each
      rendering nothing when its guard is false. */
  function Panels(state: AnalysisState, result: Option<AnalysisResult>, loadingMessage: string, errorMessage: string): (ps: seq<Panel>)
    ensures |ps| <= 1
    ensures (|ps| == 1 && ps[0].IdlePanel?) <==> state == Idle
    ensures (|ps| == 1 && ps[0].LoadingPanel?) <==> ShowsLoading(state)
    ensures (|ps| == 1 && ps[0].ErrorPanel?) <==> state == Error
    ensures (|ps| == 1 && ps[0].ResultPanel?) <==> state == Completed && result.Some?
    ensures ps == [] <==> state == Completed && result.None?
    ensures |ps| == 1 && ps[0].LoadingPanel? ==>
      ps[0].headline == Headline(loadingMessage) && ps[0].hint != "" && ps[0].percent < 100
    ensures ShowsLoading(state) ==>
      ps == [LoadingPanel(Headline(loadingMessage), StageHint(state), ProgressPercent(state))]
    ensures |ps| == 1 && ps[0].ErrorPanel? ==> ps[0].message == errorMessage
    ensures |ps| == 1 && ps[0].ResultPanel? ==> ps[0].view == ViewOf(result.value)
    ensures |ps| == 1 && ps[0].ResultPanel? ==> ps[0].view.heatmapLoads == result.value.predictedLoads
  {
    (if state == Idle then [IdlePanel] else [])
    + (if ShowsLoading(state) then [LoadingPanel(Headline(loadingMessage), StageHint(state), ProgressPercent(state))] else [])
    + (if state == Error then [ErrorPanel(errorMessage)] else [])
    + (if state == Completed && result.Some? then [ResultPanel(ViewOf(result.value))] else [])
  }
}
