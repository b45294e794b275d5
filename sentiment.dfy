/**
 * The label map of the predict handler and the choice of result banner.
 */
module Sentiment {

  /** The human-readable sentiments; `Unknown` is the lookup's fallback. */
  datatype Sentiment = Negative | Neutral | Positive | Unknown

  /** The raw classifier labels the application knows. */
  const SentimentMap: map<string, Sentiment> :=
    map["LABEL_0" := Negative, "LABEL_1" := Neutral, "LABEL_2" := Positive]

  /** `sentiment_map.get(label, "Unknown")`: total, with `Unknown` for every label outside the map. */
  function MapLabel(raw: string): (s: Sentiment)
    ensures s == Negative <==> raw == "LABEL_0"
    ensures s == Neutral <==> raw == "LABEL_1"
    ensures s == Positive <==> raw == "LABEL_2"
    ensures s == Unknown <==> raw != "LABEL_0" && raw != "LABEL_1" && raw != "LABEL_2"
  {
    if raw in SentimentMap then SentimentMap[raw] else Unknown
  }

  /** The Streamlit call that renders a banner: `st.success`, `st.error`, `st.info` or `st.warning`. */
  datatype Style = Success | Error | Info | Warning

  /** What a result banner names: a known sentiment, or the raw label under "Unknown Sentiment". */
  datatype Headline = Known(sentiment: Sentiment) | UnknownLabel(raw: string)

  /** A result banner; the confidence is shown (formatted to two decimals) but never computed with. */
  datatype Banner = Banner(style: Style, headline: Headline, confidence: real)

  /**
   * The if/elif chain on the sentiment: `st.success` for Positive, `st.error`
   * for Negative, `st.info` for Neutral and `st.warning` for anything else.
   */
  function BannerStyle(s: Sentiment): (st: Style)
    ensures st == Success <==> s == Positive
    ensures st == Error <==> s == Negative
    ensures st == Info <==> s == Neutral
    ensures st == Warning <==> s == Unknown
  {
    match s
    case Positive => Success
    case Negative => Error
    case Neutral => Info
    case Unknown => Warning
  }

  /** Different sentiments get different banner styles, so the style alone tells the sentiment. */
  lemma BannerStyleInjective(a: Sentiment, b: Sentiment)
    ensures BannerStyle(a) == BannerStyle(b) ==> a == b
  {
  }

  /**
   * The banner for a classified review: styled by the sentiment, carrying the
   * classifier's confidence unchanged, and naming the raw label exactly when
   * the sentiment is `Unknown`.
   */
  function BannerFor(s: Sentiment, raw: string, confidence: real): (b: Banner)
    ensures b.confidence == confidence
    ensures b.style == BannerStyle(s)
    ensures b.headline.UnknownLabel? <==> s == Unknown
    ensures b.headline.UnknownLabel? ==> b.headline.raw == raw
    ensures b.headline.Known? ==> b.headline.sentiment == s
  {
    if s == Unknown then Banner(Warning, UnknownLabel(raw), confidence)
    else Banner(BannerStyle(s), Known(s), confidence)
  }
}
