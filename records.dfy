/** The values that flow through the engine: training records, classifier documents, phone metrics, verdicts and errors. */
module Records {
  import opened Wrappers

  /** JavaScript truthiness of a string that may be null or undefined: present and not the empty string. */
  predicate Present(o: Option<string>) {
    o.Some? && o.value != ""
  }

  /** One labelled row of the training data (`label` is a Dafny keyword, hence `labelName`). Any label other than exactly "spam" counts as ham. */
  datatype TrainingRecord = TrainingRecord(text: Option<string>, labelName: string, phone: Option<string>)

  /** The argument of `train`: an array of records, or any other value. */
  datatype Dataset = Records(items: seq<TrainingRecord>) | NotAnArray

  /** A document handed to the Bayes classifier: the preprocessed tokens and the record's label. */
  datatype Document = Document(tokens: seq<string>, labelName: string)

  /** A value the classifier reports for a label; the classifier is only assumed to stay in [0, 1]. */
  type Probability = r: real | 0.0 <= r <= 1.0 witness 0.0

  /** Per-phone training history. The source stores `total` and recomputes it after every update. */
  datatype PhoneMetrics = PhoneMetrics(spamCount: nat, hamCount: nat, total: nat)

  datatype Label = Spam | Ham

  datatype Prediction = Prediction(prediction: Label, confidence: real, reason: string)

  /** Why `train` or `predict` throws. */
  datatype Error =
    | NotTrained        // `predict` before any `train`: Error('Model not trained')
    | MissingInput      // `predict` with neither text nor phone: Error('Either text or phone number is required')
    | InvalidDataset    // `train` given something that is not an array: Error('Dataset must be an array')
    | TextNotString     // the older `predict` calls `toLowerCase` on a null or undefined text: the runtime's TypeError
}
