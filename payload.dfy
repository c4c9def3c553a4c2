/**
 * The JSON body that the prediction service returns from `/predict` and that
 * the browser client stores, displays and prints.
 */
module Payload {

  /** One contributing factor: a feature name and its impact, in tenths of a percent. */
  datatype Factor = Factor(name: string, impact: int)

  /** One entry of `models_detail`: the model's key, its 0/1 vote, its confidence text and its benchmark accuracy. */
  datatype ModelDetail = ModelDetail(name: string, pred: int, conf: string, accuracy: string)

  /**
   * The assessment.  `confidence` and every `conf` are decimal renderings of
   * floating-point probabilities and stay opaque text here.
   */
  datatype PredictionResult = PredictionResult(
    prediction: int,
    consensus: string,
    result: string,
    confidence: string,
    modelsDetail: seq<ModelDetail>,
    topFactors: seq<Factor>,
    disclaimer: string)
}
