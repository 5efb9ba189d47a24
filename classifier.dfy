/** The post-processing `IntentClassifier.classify` applies to the JSON object
    the language model returned (src/agent/intent_classifier.py). The request
    and the JSON parsing are opaque: they arrive as an `Outcome<RawResult>`. */
module Classifier {
  import opened Outcomes

  /** The keys of `IntentClassifier.INTENTS`. */
  const INTENTS: set<string> :=
    {"next_class", "topic_research", "weekly_plan", "assignments", "help"}

  /** A parsed classification: each of the five keys may be missing. */
  datatype RawResult = RawResult(
    intent: Option<string>,
    params: Option<map<string, string>>,
    confidence: Option<real>,
    needsClarification: Option<bool>,
    clarificationQuestion: Option<string>)

  /** All five keys are present. */
  predicate Complete(r: RawResult)
  {
    && r.intent.Some? && r.params.Some? && r.confidence.Some?
    && r.needsClarification.Some? && r.clarificationQuestion.Some?
  }

  /** `result.get('intent') in self.INTENTS`. */
  predicate HasKnownIntent(r: RawResult)
  {
    r.intent.Some? && r.intent.value in INTENTS
  }

  /** `dict.setdefault`: keep a present value, otherwise use the default. */
  function SetDefault<T>(field: Option<T>, default: T): (r: Option<T>)
    ensures r.Some?
    ensures field.Some? ==> r == field
    ensures field.None? ==> r == Some(default)
  {
    if field.Some? then field else Some(default)
  }

  /** Validation and defaulting of a parsed result. */
  function Normalise(raw: RawResult): (r: RawResult)
    ensures Complete(r) && HasKnownIntent(r)
    // a known intent is kept, and its confidence is defaulted only when missing
    ensures HasKnownIntent(raw) ==> r.intent == raw.intent
    ensures HasKnownIntent(raw) ==> r.confidence == if raw.confidence.Some? then raw.confidence else Some(0.8)
    // a missing or unknown intent becomes help with confidence 0.5, whatever was supplied
    ensures !HasKnownIntent(raw) ==> r.intent == Some("help") && r.confidence == Some(0.5)
    // the other fields are defaulted only when missing, never overwritten
    ensures raw.params.Some? ==> r.params == raw.params
    ensures raw.params.None? ==> r.params == Some(map[])
    ensures raw.needsClarification.Some? ==> r.needsClarification == raw.needsClarification
    ensures raw.needsClarification.None? ==> r.needsClarification == Some(false)
    ensures raw.clarificationQuestion.Some? ==> r.clarificationQuestion == raw.clarificationQuestion
    ensures raw.clarificationQuestion.None? ==> r.clarificationQuestion == Some("")
  {
    var validated :=
      if HasKnownIntent(raw) then raw
      else raw.(intent := Some("help"), confidence := Some(0.5));
    validated.(
      params := SetDefault(validated.params, map[]),
      confidence := SetDefault(validated.confidence, 0.8),
      needsClarification := SetDefault(validated.needsClarification, false),
      clarificationQuestion := SetDefault(validated.clarificationQuestion, ""))
  }

  /** The dictionary returned from the `except Exception` branch. */
  const Fallback: RawResult :=
    RawResult(Some("help"), Some(map[]), Some(0.0), Some(false), Some(""))

  /** `IntentClassifier.classify` given what the request-and-parse step
      produced: a normalised result, the fixed fallback when that step raised
      an exception, and a `KeyboardInterrupt` passed on unhandled. */
  function Classify(reply: Outcome<RawResult>): (r: Outcome<RawResult>)
    ensures r.Fail? <==> reply == Fail(KeyboardInterrupt)
    ensures r.Fail? ==> r.failure == KeyboardInterrupt
    ensures r.Ok? ==> Complete(r.value) && HasKnownIntent(r.value)
    ensures reply.Ok? ==> r == Ok(Normalise(reply.value))
    ensures reply.Fail? && reply.failure.Exception? ==> r == Ok(Fallback)
  {
    match reply
    case Ok(raw) => Ok(Normalise(raw))
    case Fail(Exception(_)) => Ok(Fallback)
    case Fail(KeyboardInterrupt) => Fail(KeyboardInterrupt)
  }

  /** Normalisation leaves a result alone exactly when it already has a known
      intent and all five keys. */
  lemma NormaliseFixedPoints(raw: RawResult)
    ensures Normalise(raw) == raw <==> Complete(raw) && HasKnownIntent(raw)
  {
  }

  /** Normalising twice is normalising once. */
  lemma NormaliseIdempotent(raw: RawResult)
    ensures Normalise(Normalise(raw)) == Normalise(raw)
  {
    NormaliseFixedPoints(Normalise(raw));
  }

  /** Every result `classify` returns has one of the five intents and all five keys,
      and a known intent survives classification. */
  lemma ClassifiedIntents(reply: Outcome<RawResult>)
    requires reply.Ok? || reply.failure.Exception?
    ensures Classify(reply).Ok?
    ensures Classify(reply).value.intent.value in INTENTS
    ensures reply.Ok? && HasKnownIntent(reply.value) ==>
              Classify(reply).value.intent == reply.value.intent
    ensures Classify(reply).value.intent.value != "help" ==>
              reply.Ok? && Classify(reply).value.intent == reply.value.intent
  {
  }
}
