/** The feature flags of the entitlement system and the usage event reported for each. */
module Flags {

  /** The `FeatureFlag` enumeration. */
  datatype FeatureFlag = Transcription | ImageGeneration | AnalyseVideo | TitleGenerations | ScriptGeneration

  /** The string value of each enumeration member, as sent to the policy oracle. */
  function Value(f: FeatureFlag): (v: string)
    ensures v != ""
  {
    match f
    case Transcription => "transcription"
    case ImageGeneration => "image-generation"
    case AnalyseVideo => "analysis-video"
    case TitleGenerations => "title-generations"
    case ScriptGeneration => "script-generation"
  }

  /** The five flags have pairwise distinct string values. */
  lemma ValuesDistinct(f: FeatureFlag, g: FeatureFlag)
    ensures Value(f) == Value(g) <==> f == g
  {
  }

  /** One entry of the `featureFlagEvents` record. */
  datatype EventEntry = EventEntry(event: string)

  /** The `featureFlagEvents` record, keyed by flag. */
  const FeatureFlagEvents: map<FeatureFlag, EventEntry> :=
    map[
      Transcription := EventEntry("transcribe"),
      ImageGeneration := EventEntry("generate-image"),
      AnalyseVideo := EventEntry("analysis-video"),
      TitleGenerations := EventEntry("generate-title"),
      ScriptGeneration := EventEntry("")
    ]

  /** The record is total: every flag has an event entry. */
  lemma EventsTotal(f: FeatureFlag)
    ensures f in FeatureFlagEvents
  {
    match f
    case Transcription =>
    case ImageGeneration =>
    case AnalyseVideo =>
    case TitleGenerations =>
    case ScriptGeneration =>
  }

  /** `featureFlagEvents[f].event`: the usage event tracked for flag `f`. */
  function EventOf(f: FeatureFlag): (e: string)
    ensures f == Transcription ==> e == "transcribe"
    ensures f == ImageGeneration ==> e == "generate-image"
    ensures f == TitleGenerations ==> e == "generate-title"
    ensures e == "" <==> f == ScriptGeneration
    ensures f == AnalyseVideo <==> e == Value(f)
  {
    EventsTotal(f);
    FeatureFlagEvents[f].event
  }

  /** Distinct flags report distinct events. */
  lemma EventsDistinct(f: FeatureFlag, g: FeatureFlag)
    ensures EventOf(f) == EventOf(g) <==> f == g
  {
  }
}
