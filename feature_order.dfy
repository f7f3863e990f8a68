/** The feature order shared by the browser and the training scripts: the
    vector script.js builds must line up with the rows the Python scripts
    train on. */
module FeatureOrder {
  import opened Synthetic
  import opened Scoring

  /** The training row of a profile is the browser's feature vector for the
      same readings: utility as a fraction and LinkedIn as 0 or 1. */
  lemma TrainingRowMatchesBrowserFeatures(inp: Inputs)
    ensures Row(Sample(inp.streak, inp.delay, inp.utilityPercent as real / 100.0,
                       if inp.linkedin then 1 else 0)) == Features(inp)
  {
  }
}
