/**
 * Consequences of the handler's contract that relate its branches, and worked
 * scenarios: a positive review, an empty review, a classifier that raises, and
 * a session that grows and is cleared.
 */
module Scenarios {
  import opened Wrappers
  import opened Text
  import opened Sentiment
  import opened Controller

  /** While the model is not loaded every press is refused, blank or not, and nothing is recorded. */
  lemma NotLoadedRefusesEverything(review: string, timestamp: string)
    ensures Decide(None, review, timestamp) == ModelNotLoaded
    ensures StyleOf(Decide(None, review, timestamp)) == Error
    ensures MessageOf(Decide(None, review, timestamp)) == ModelNotLoadedMessage
  {
  }

  /**
   * A label outside the map is not an error: it shows a warning naming the raw
   * label, and is still recorded, as `Unknown`, like any other prediction.
   */
  lemma UnknownLabelIsRecorded(clf: Classifier, review: string, timestamp: string, p: Prediction)
    requires !IsBlank(review)
    requires TopResult(clf(review)) == Ok(p)
    requires p.rawLabel !in SentimentMap
    ensures var o := Decide(Some(clf), review, timestamp);
            o.Predicted? && o.banner == Banner(Warning, UnknownLabel(p.rawLabel), p.score) &&
            o.entry.sentiment == Unknown && o.entry.confidence == p.score
  {
  }

  /**
   * Which banner a press shows: an error for a missing model, a failed call or
   * a negative review; a warning for a blank review or an unknown label; success
   * for a positive and info for a neutral review.
   */
  lemma StyleOfDecide(clf: Option<Classifier>, review: string, timestamp: string)
    ensures var o := Decide(clf, review, timestamp);
            (StyleOf(o) == Error <==>
               o == ModelNotLoaded || o.PredictionFailed? || (o.Predicted? && o.entry.sentiment == Negative)) &&
            (StyleOf(o) == Warning <==>
               o == EmptyReview || (o.Predicted? && o.entry.sentiment == Unknown)) &&
            (StyleOf(o) == Success <==> o.Predicted? && o.entry.sentiment == Positive) &&
            (StyleOf(o) == Info <==> o.Predicted? && o.entry.sentiment == Neutral)
  {
  }

  /**
   * Two reviews that share their excerpt are still classified apart: the
   * classifier is given the whole review, and only the stored text is cut.
   */
  lemma ClassifierSeesWholeReview(clf: Classifier, r1: string, r2: string, timestamp: string)
    requires !IsBlank(r1) && !IsBlank(r2) && Excerpt(r1) == Excerpt(r2)
    requires TopResult(clf(r1)).Ok? && TopResult(clf(r2)).Ok?
    requires TopResult(clf(r1)).value.score != TopResult(clf(r2)).value.score
    ensures Decide(Some(clf), r1, timestamp).entry.review == Decide(Some(clf), r2, timestamp).entry.review
    ensures Decide(Some(clf), r1, timestamp).entry.confidence != Decide(Some(clf), r2, timestamp).entry.confidence
  {
  }

  const PositiveReview := "This product exceeded my expectations!"

  /** A positive review, classified `LABEL_2` with score 0.97, is shown as success and recorded whole. */
  lemma ScenarioPositive(clf: Classifier, timestamp: string)
    requires clf(PositiveReview) == Ok([Prediction("LABEL_2", 0.97)])
    ensures Decide(Some(clf), PositiveReview, timestamp) ==
            Predicted(Banner(Success, Known(Positive), 0.97),
                      Entry(timestamp, PositiveReview, Positive, 0.97))
  {
    assert !IsWhitespace(PositiveReview[0]);
  }

  /** An empty review is answered with the warning and nothing is recorded. */
  lemma ScenarioEmpty(clf: Classifier, timestamp: string)
    ensures Decide(Some(clf), "", timestamp) == EmptyReview
    ensures StyleOf(EmptyReview) == Warning && MessageOf(EmptyReview) == EmptyReviewMessage
  {
  }

  /** A classifier that raises yields the prediction error carrying its message. */
  lemma ScenarioRaises(clf: Classifier, review: string, timestamp: string, cause: string)
    requires !IsBlank(review)
    requires clf(review) == Err(cause)
    ensures Decide(Some(clf), review, timestamp) == PredictionFailed(cause)
    ensures MessageOf(PredictionFailed(cause)) == PredictionErrorPrefix + cause
  {
  }

  /**
   * A session over several presses: the history grows by one entry per
   * successful prediction, in order and with the mapped sentiment and the
   * unchanged score, and two clears leave it empty.
   */
  method SessionScenario(clf: Classifier, review: string, t1: string, t2: string)
    returns (h: seq<Entry>, after: seq<Entry>)
    requires !IsBlank(review)
    requires TopResult(clf(review)).Ok?
    ensures var p := TopResult(clf(review)).value;
            h == [Entry(t1, Excerpt(review), MapLabel(p.rawLabel), p.score),
                  Entry(t2, Excerpt(review), MapLabel(p.rawLabel), p.score)]
    ensures after == []
  {
    var p := TopResult(clf(review)).value;
    var s := MapLabel(p.rawLabel);
    var session := new Session();
    var o := session.Submit(None, review, t1);
    assert session.history == [];
    assert IsBlank("  \n");
    o := session.Submit(Some(clf), "  \n", t1);
    assert session.history == [];
    o := session.Submit(Some(clf), review, t1);
    assert session.history == [Entry(t1, Excerpt(review), s, p.score)];
    o := session.Submit(Some(clf), review, t2);
    assert session.history == [Entry(t1, Excerpt(review), s, p.score), Entry(t2, Excerpt(review), s, p.score)];
    h := session.history;
    session.Clear();
    session.Clear();
    after := session.history;
  }
}
