/** Records shared by the page, the result card and the heatmap. */
module Domain {

  datatype Option<+T> = None | Some(value: T)

  /** The six states of the analysis pipeline; exactly one is current. */
  datatype AnalysisState = Idle | Uploading | Extracting | Predicting | Completed | Error

  /** The nine gait measurements produced by the extraction service. */
  datatype GaitFeatures = GaitFeatures(
    meanAnkleAngle: real,
    ankleAngleRange: real,
    ankleAngleStd: real,
    meanKneeAngle: real,
    kneeAngleRange: real,
    kneeAngleStd: real,
    meanStepHeight: real,
    cadence: real,
    stanceRatio: real)

  /** Pressure fractions of the three foot zones (not checked to lie in [0,1]). */
  datatype PredictedLoads = PredictedLoads(forefoot: real, midfoot: real, rearfoot: real)

  /** Millimetre heights of the six orthotic components. */
  datatype OrthoticPrescription = OrthoticPrescription(
    rearfootMedialPostMm: real,
    rearfootLateralPostMm: real,
    forefootLateralWedgeMm: real,
    forefootMedialWedgeMm: real,
    archSupportMm: real,
    heelCushionMm: real)

  /** The merged outcome of both services. */
  datatype AnalysisResult = AnalysisResult(
    gaitFeatures: GaitFeatures,
    predictedLoads: PredictedLoads,
    orthoticPrescription: OrthoticPrescription,
    videoFilename: string,
    numFrames: int)

  /** The part of a browser File the components look at. */
  datatype VideoFile = VideoFile(name: string, mimeType: string, size: nat)
}
