/** The backend's prediction reply as the client sees it (the JSON object returned by
    `apiService.predictImage`), and the guard both capture paths apply before a reply's
    letter is used. Absent or empty JavaScript strings are the empty string here, and an
    absent confidence is `None`. */
module Backend {
  import opened Wrappers

  /** The backend's "no hand" answer, which is a successful reply carrying no letter. */
  const NoHandDetected: string := "No hand detected"

  datatype Prediction = Prediction(
    success: bool,
    prediction: string,
    confidence: Option<real>,
    dataset: string,
    languageType: string,
    error: string)

  /** `result.success && result.prediction && result.prediction !== "No hand detected"`. */
  predicate CarriesLetter(r: Prediction)
  {
    r.success && r.prediction != "" && r.prediction != NoHandDetected
  }
}
