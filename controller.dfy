/**
 * The "Predict Sentiment" handler and the session's analysis history.
 */
module Controller {
  import opened Wrappers
  import opened Text
  import opened Sentiment

  /** One element of the list the text-classification pipeline returns: `{'label': …, 'score': …}`. */
  datatype Prediction = Prediction(rawLabel: string, score: real)

  /**
   * A loaded pipeline, called on the review text: `Ok` with the returned list
   * of predictions, or `Err` with the message of the exception it raised.
   */
  type Classifier = string -> Result<seq<Prediction>, string>

  /** A row of the history table: Timestamp, Review (the excerpt), Sentiment, Confidence. */
  datatype Entry = Entry(timestamp: string, review: string, sentiment: Sentiment, confidence: real)

  /** What one press of "Predict Sentiment" shows. */
  datatype Outcome =
    | ModelNotLoaded
    | EmptyReview
    | PredictionFailed(cause: string)
    | Predicted(banner: Banner, entry: Entry)

  const ModelNotLoadedMessage := "Model not loaded. Please check the model directory."
  const EmptyReviewMessage := "Please enter a review to analyze."
  const PredictionErrorPrefix := "Error during prediction: "

  /** Message of the `IndexError` that `[0]` raises on an empty list. */
  const IndexErrorMessage := "list index out of range"

  /** `clf(review)[0]`: the first prediction, with indexing an empty list failing like the call itself. */
  function TopResult(call: Result<seq<Prediction>, string>): (r: Result<Prediction, string>)
    ensures r.Ok? <==> call.Ok? && call.value != []
    ensures r.Ok? ==> r.value == call.value[0]
    ensures call.Err? ==> r == Err(call.error)
    ensures call == Ok([]) ==> r == Err(IndexErrorMessage)
  {
    match call
    case Err(e) => Err(e)
    case Ok(ps) => if ps == [] then Err(IndexErrorMessage) else Ok(ps[0])
  }

  /**
   * The decision the handler makes. The checks come in a fixed order: a
   * missing model wins over everything, then a blank review, and only then is
   * the classifier called, on the whole review. A successful call yields the
   * mapped sentiment's banner and the history entry built from the excerpt,
   * the sentiment and the unchanged score.
   */
  function Decide(clf: Option<Classifier>, review: string, timestamp: string): (o: Outcome)
    ensures clf.None? ==> o == ModelNotLoaded
    ensures clf.Some? && IsBlank(review) ==> o == EmptyReview
    ensures o.PredictionFailed? <==>
              clf.Some? && !IsBlank(review) && TopResult(clf.value(review)).Err?
    ensures o.PredictionFailed? ==> o.cause == TopResult(clf.value(review)).error
    ensures o.Predicted? <==> clf.Some? && !IsBlank(review) && TopResult(clf.value(review)).Ok?
    ensures o.Predicted? ==>
              var p := TopResult(clf.value(review)).value;
              var s := MapLabel(p.rawLabel);
              o.entry == Entry(timestamp, Excerpt(review), s, p.score) &&
              o.banner == BannerFor(s, p.rawLabel, p.score)
  {
    if clf.None? then ModelNotLoaded
    else if Strip(review) == "" then EmptyReview
    else
      match TopResult(clf.value(review))
      case Err(e) => PredictionFailed(e)
      case Ok(p) =>
        var s := MapLabel(p.rawLabel);
        Predicted(BannerFor(s, p.rawLabel, p.score), Entry(timestamp, Excerpt(review), s, p.score))
  }

  /**
   * The Streamlit call that shows an outcome: `st.error` for a missing model
   * and a failed prediction, `st.warning` for a blank review, and the banner's
   * own style for a prediction.
   */
  function StyleOf(o: Outcome): (st: Style)
    ensures o == ModelNotLoaded || o.PredictionFailed? ==> st == Error
    ensures o == EmptyReview ==> st == Warning
    ensures o.Predicted? ==> st == o.banner.style
  {
    match o
    case ModelNotLoaded => Error
    case EmptyReview => Warning
    case PredictionFailed(_) => Error
    case Predicted(b, _) => b.style
  }

  /**
   * The text shown for an outcome other than a prediction: the two fixed
   * messages, or the prediction-error prefix followed by the exception's message.
   */
  function MessageOf(o: Outcome): (m: string)
    requires !o.Predicted?
    ensures o == ModelNotLoaded ==> m == ModelNotLoadedMessage
    ensures o == EmptyReview ==> m == EmptyReviewMessage
    ensures o.PredictionFailed? ==>
              |m| == |PredictionErrorPrefix| + |o.cause| &&
              m[..|PredictionErrorPrefix|] == PredictionErrorPrefix && m[|PredictionErrorPrefix|..] == o.cause
  {
    match o
    case ModelNotLoaded => ModelNotLoadedMessage
    case EmptyReview => EmptyReviewMessage
    case PredictionFailed(cause) => PredictionErrorPrefix + cause
  }

  /** The session state: `st.session_state.history`, oldest entry first. */
  class Session {
    var history: seq<Entry>

    /** The first run of a session starts with an empty history. */
    constructor ()
      ensures history == []
    {
      history := [];
    }

    /**
     * Press "Predict Sentiment": decide the outcome and, on a successful
     * prediction only, append its entry at the end of the history.
     */
    method Submit(clf: Option<Classifier>, review: string, timestamp: string) returns (o: Outcome)
      modifies this
      ensures o == Decide(clf, review, timestamp)
      ensures o.Predicted? ==> history == old(history) + [o.entry]
      ensures !o.Predicted? ==> history == old(history)
    {
      if clf.None? {
        o := ModelNotLoaded;
      } else if Strip(review) == "" {
        o := EmptyReview;
      } else {
        var call := clf.value(review);
        var top := TopResult(call);
        if top.Err? {
          o := PredictionFailed(top.error);
        } else {
          var sentiment := MapLabel(top.value.rawLabel);
          var banner := BannerFor(sentiment, top.value.rawLabel, top.value.score);
          var entry := Entry(timestamp, Excerpt(review), sentiment, top.value.score);
          history := history + [entry];
          o := Predicted(banner, entry);
        }
      }
    }

    /** Press "Clear History": the history is empty afterwards, whatever it held. */
    method Clear()
      modifies this
      ensures history == []
    {
      history := [];
    }
  }
}
