# Amazon review sentiment classifier: predict and history controller

A model of the logic of `app.py`, the Streamlit page that classifies a product
review as Negative, Neutral or Positive and keeps a per-session history table.
The text-classification pipeline is an input: it is either not loaded, or a
function from the review text to the list of predictions it returns or to the
message of the exception it raises.

- `wrappers.dfy`: `Option` and `Result`.
- `text.dfy`: Python's `str.strip()` over the `str.isspace()` characters, the
  blank-input test, and the 50-character review excerpt.
- `sentiment.dfy`: the label map with its `Unknown` fallback and the choice of
  result banner.
- `controller.dfy`: the outcome of one press of "Predict Sentiment" (`Decide`)
  and the session state (`Session`, with `Submit` and `Clear` over
  `history: seq<Entry>`).
- `scenarios.dfy`: lemmas that relate the branches of the handler, and worked
  scenarios: a positive review, an empty review, a classifier that raises, and
  a session that grows and is cleared.

The blank test is modelled as the code writes it, `Strip(review) == ""`, and
`Strip`'s contract proves this equals "every character is whitespace".
Indexing the returned list with `[0]` is modelled too: an empty list raises
`IndexError` inside the same `try`, so it ends as a prediction error.

## Model

| member | source | states |
|---|---|---|
| Text.IsWhitespaceMatchesTable | app.py:56 | the whitespace test used by `strip()` holds exactly for the 29 code points of CPython's `str.isspace()` table, listed one by one |
| Text.TrimStart | app.py:56 | the result is the suffix of the input left after removing leading whitespace; everything removed was whitespace and the result does not start with whitespace |
| Text.TrimEnd | app.py:56 | the result is the prefix left after removing trailing whitespace; everything removed was whitespace and the result does not end with whitespace |
| Text.Strip | app.py:56 | `review.strip()` is empty exactly when every character of the review is whitespace; otherwise it starts and ends with a non-whitespace character; it is a contiguous slice of the review with only whitespace before and after it |
| Text.Excerpt | app.py:82 | the excerpt is at most 53 characters long; a review of at most 50 characters is kept unchanged; a longer one gives exactly 53 characters ending in "..."; the excerpt agrees with the review on its first 50 characters |
| Text.ExcerptIdempotent | app.py:82 | taking the excerpt of an excerpt changes nothing |
| Sentiment.MapLabel | app.py:66-67 | the mapping is total; "LABEL_0" gives Negative, "LABEL_1" Neutral, "LABEL_2" Positive, each if and only if; every other label gives Unknown |
| Sentiment.BannerStyle | app.py:70-77 | Positive is shown with `st.success`, Negative with `st.error`, Neutral with `st.info`, and Unknown with `st.warning`, each if and only if |
| Sentiment.BannerStyleInjective | app.py:70-77 | distinct sentiments are shown with distinct banner styles |
| Sentiment.BannerFor | app.py:70-77 | the banner carries the confidence unchanged and is styled by the sentiment; it names the raw label exactly when the sentiment is Unknown, and otherwise names the sentiment |
| Controller.TopResult | app.py:61 | `clf(review)[0]` succeeds exactly when the call returned a non-empty list, and then gives its first element; a raised exception is passed on; an empty list fails with "list index out of range" |
| Controller.Decide | app.py:53-88 | no model gives the "model not loaded" outcome for every input, blank ones included; otherwise a blank review gives the warning; otherwise the classifier is called on the whole review; a failure gives the prediction error with its cause; a success gives the mapped sentiment's banner and an entry holding the timestamp, the excerpt, the sentiment and the unchanged score |
| Controller.StyleOf | app.py:53-88 | a missing model and a failed prediction are shown with `st.error`, a blank review with `st.warning`, and a prediction with its banner's style |
| Controller.MessageOf | app.py:55-88 | the texts "Model not loaded. Please check the model directory." and "Please enter a review to analyze.", and for a failed prediction "Error during prediction: " followed by the exception's message |
| Controller.Session.constructor | app.py:30-31 | a new session starts with an empty history |
| Controller.Session.Submit | app.py:53-88 | the outcome is `Decide`'s; a successful prediction appends exactly one entry at the end and leaves earlier entries untouched; every other outcome leaves the history unchanged |
| Controller.Session.Clear | app.py:39-41 | the history is empty afterwards whatever it held, so clearing twice is the same as clearing once |
| Scenarios.NotLoadedRefusesEverything | app.py:54-55 | without a model every review, blank or not, gets the error banner with the "Model not loaded" message |
| Scenarios.UnknownLabelIsRecorded | app.py:66-85 | a label outside the map is not an error: it shows a warning naming the raw label and is recorded as Unknown with the score unchanged |
| Scenarios.StyleOfDecide | app.py:54-88 | the banner is an error exactly for a missing model, a failed call or a Negative review; a warning exactly for a blank review or an Unknown label; success exactly for Positive; info exactly for Neutral |
| Scenarios.ClassifierSeesWholeReview | app.py:61-85 | two reviews with the same excerpt are stored with the same review text, yet keep the distinct scores their full texts received |
| Scenarios.ScenarioPositive | app.py:53-85 | "This product exceeded my expectations!" classified as LABEL_2 with score 0.97 gives a success banner for Positive and an entry holding that review unchanged |
| Scenarios.ScenarioEmpty | app.py:56-57 | an empty review with a loaded model gives the warning "Please enter a review to analyze." |
| Scenarios.ScenarioRaises | app.py:60-61 | a classifier that raises gives "Error during prediction: " followed by its message |
| Scenarios.SessionScenario | app.py:30-85 | after a press without a model, a blank press and two successful presses, the history is exactly the two entries in order, each holding its timestamp, the excerpt, the mapped sentiment and the unchanged score; after two clears it is empty |

## Left out

- Page layout and widgets (`set_page_config`, titles, markdown, `text_area`, buttons, spinner, the sidebar `dataframe` and `st.rerun`): rendering, with no logic to state. The button press is the call of `Session.Submit` or `Session.Clear`.
- Loading the model with `transformers.pipeline` and `@st.cache_resource`: a library call on a directory on disk. Only its outcome is modelled, as `None` (load failed) or a loaded classifier; the error shown when loading fails is not modelled.
- The inference itself: the classifier is a parameter of type `Classifier`.
- `datetime.now().strftime(...)`: clock access; the timestamp is a string parameter.
- Confidence is a `real` that is only passed along; its two-decimal formatting in the banners and the table is not modelled, and neither is the banner text around it (emoji, bold markup).
- Python strings may hold lone surrogate code points, which a Dafny `char` cannot; the model covers strings of Unicode scalar values.
- The commented-out dashboard, pie chart and CSV export at the end of `app.py` are not active code.
