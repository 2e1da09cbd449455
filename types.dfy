/** Shared value types of the demo (src/types.ts) and the Option wrapper used
    for the nullable values of the components. */
module Types {

  /** A nullable value: `null` (or `undefined`) in the source is None. */
  datatype Option<+T> = None | Some(value: T)

  /** A canned analysis record; the pool never changes these values. */
  datatype EmotionAnalysis = EmotionAnalysis(
    emotionLabel: string,
    understanding: string,
    actionableSteps: seq<string>)

  /** The four screens the top-level component can select. */
  datatype ViewState = DevNotice | Input | Analyzing | Results
}
