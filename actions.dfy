/**
 * The gateway actions of src/app/actions.ts in their mock mode: each returns a fixed value,
 * or one derived from its input by fixed rules, without contacting the provider.
 */
module Actions {
  import opened Accessibility
  import opened Strings
  import Mood
  import Wrappers
  import SignLanguageTranslation

  // ---------------------------------------------------------------------------
  // getAccessibilitySuggestions

  /** The UI configuration derived from an accessibility profile. */
  function GetAccessibilitySuggestions(input: AdaptAccessibilityUIInput): (r: AdaptAccessibilityUIOutput)
    ensures r.fontSize == "large" && r.contrastLevel == "high" && r.preferredLanguage == "en"
    ensures r.voiceNavigationEnabled <==> input.accessibilityNeeds.motor in {Severity.Mild, Severity.Moderate, Severity.Severe}
    ensures r.gestureControlEnabled <==> input.accessibilityNeeds.motor.Severe?
    ensures r.signLanguageSupport <==> input.preferredCommunicationMode.Sign?
  {
    AdaptAccessibilityUIOutput(
      fontSize := "large",
      contrastLevel := "high",
      voiceNavigationEnabled := input.accessibilityNeeds.motor != Severity.None,
      gestureControlEnabled := input.accessibilityNeeds.motor == Severity.Severe,
      signLanguageSupport := input.preferredCommunicationMode == Sign,
      preferredLanguage := "en")
  }

  /** Gesture control is only ever offered together with voice navigation. */
  lemma GestureControlImpliesVoiceNavigation(input: AdaptAccessibilityUIInput)
    ensures GetAccessibilitySuggestions(input).gestureControlEnabled
            ==> GetAccessibilitySuggestions(input).voiceNavigationEnabled
  {
  }

  /** The vision and cognitive needs never influence the configuration. */
  lemma SuggestionsDependOnMotorAndModeOnly(a: AdaptAccessibilityUIInput, b: AdaptAccessibilityUIInput)
    requires a.accessibilityNeeds.motor == b.accessibilityNeeds.motor
    requires a.preferredCommunicationMode == b.preferredCommunicationMode
    ensures GetAccessibilitySuggestions(a) == GetAccessibilitySuggestions(b)
  {
  }

  // ---------------------------------------------------------------------------
  // getEmpatheticResponse

  datatype EmpatheticAICompanionInput = EmpatheticAICompanionInput(userInput: string)

  /** The object the mock returns (not the declared `{response}` shape). */
  datatype EmpatheticResponse = EmpatheticResponse(sentimentScore: real, suggestedActions: seq<string>)

  const PositiveScore: real := 0.8
  const NegativeScore: real := -0.4

  const PositiveActions: seq<string> := [
    "That sounds wonderful! Maybe share that positivity with a friend.",
    "Keep embracing that feeling!"
  ]

  const NegativeActions: seq<string> := [
    "It's okay to feel that way. Perhaps taking a few deep breaths could help.",
    "Consider writing down your thoughts in the journal."
  ]

  /**
   * The keyword classifier: the lower-cased input includes "happy" or "good", that is, one of
   * the two keywords occurs somewhere in it.
   */
  predicate IsPositive(userInput: string)
    ensures IsPositive(userInput)
            <==> OccursIn(ToLower(userInput), "happy") || OccursIn(ToLower(userInput), "good")
  {
    IncludesIffOccurs(ToLower(userInput), "happy");
    IncludesIffOccurs(ToLower(userInput), "good");
    Includes(ToLower(userInput), "happy") || Includes(ToLower(userInput), "good")
  }

  /** The mock sentiment response: one of two fixed score/suggestion pairs. */
  function GetEmpatheticResponse(input: EmpatheticAICompanionInput): (r: EmpatheticResponse)
    ensures IsPositive(input.userInput) ==> r.sentimentScore == 0.8 && r.suggestedActions == PositiveActions
    ensures !IsPositive(input.userInput) ==> r.sentimentScore == -0.4 && r.suggestedActions == NegativeActions
    ensures r.sentimentScore > 0.0 <==> IsPositive(input.userInput)
    ensures |r.suggestedActions| == 2
    ensures Mood.IsMoodScore(r.sentimentScore)
  {
    var isPositive := IsPositive(input.userInput);
    EmpatheticResponse(
      sentimentScore := if isPositive then PositiveScore else NegativeScore,
      suggestedActions := if isPositive then PositiveActions else NegativeActions)
  }

  /** Inputs that differ only in the case of ASCII letters get identical responses. */
  lemma EmpatheticResponseIgnoresCase(a: EmpatheticAICompanionInput, b: EmpatheticAICompanionInput)
    requires SameIgnoringCase(a.userInput, b.userInput)
    ensures GetEmpatheticResponse(a) == GetEmpatheticResponse(b)
  {
    ToLowerIgnoresCase(a.userInput, b.userInput);
  }

  /** A keyword occurring anywhere in the lower-cased input makes it positive. */
  lemma KeywordOccurrenceIsPositive(userInput: string, i: nat)
    requires OccursAt(ToLower(userInput), "happy", i) || OccursAt(ToLower(userInput), "good", i)
    ensures IsPositive(userInput)
  {
    if OccursAt(ToLower(userInput), "happy", i) {
      OccurrenceIncludes(ToLower(userInput), "happy", i);
    } else {
      OccurrenceIncludes(ToLower(userInput), "good", i);
    }
  }

  /** "good" inside an input with no upper-case letters makes it positive. */
  lemma LowercaseGoodIsPositive(userInput: string, i: nat)
    requires forall j :: 0 <= j < |userInput| ==> !('A' <= userInput[j] <= 'Z')
    requires OccursAt(userInput, "good", i)
    ensures IsPositive(userInput)
  {
    ToLowerKeepsLowercase(userInput);
    KeywordOccurrenceIsPositive(userInput, i);
  }

  /** Substrings count: "goodbye" is classified positive. */
  lemma GoodbyeIsPositive()
    ensures IsPositive("goodbye")
  {
    LowercaseGoodIsPositive("goodbye", 0);
  }

  /** Negation is not understood: "not good" is classified positive. */
  lemma NotGoodIsPositive()
    ensures IsPositive("not good")
  {
    assert "not good"[4..8] == "good";
    LowercaseGoodIsPositive("not good", 4);
  }

  /** Upper-case keywords count too: "HAPPY" is classified positive. */
  lemma UpperCaseKeywordIsPositive()
    ensures IsPositive("HAPPY")
  {
    var upper := ToLower("HAPPY");
    assert upper[0] == 'h' && upper[1] == 'a' && upper[2] == 'p' && upper[3] == 'p' && upper[4] == 'y';
    assert upper == "happy";
    OccurrenceIncludes(upper, "happy", 0);
  }

  /** An input with no letter 'h' and no letter 'd', in either case, cannot hold a keyword. */
  lemma NoKeywordLettersIsNegative(userInput: string)
    requires 'h' !in userInput && 'H' !in userInput && 'd' !in userInput && 'D' !in userInput
    ensures !IsPositive(userInput)
  {
    var lower := ToLower(userInput);
    assert 'h' !in lower && 'd' !in lower;
    IncludedCharsOccur(lower, "happy", 0);
    IncludedCharsOccur(lower, "good", 3);
  }

  /** "I am not feeling well" contains neither keyword and gets the supportive pair. */
  lemma NotFeelingWellIsNegative()
    ensures GetEmpatheticResponse(EmpatheticAICompanionInput("I am not feeling well"))
            == EmpatheticResponse(-0.4, NegativeActions)
  {
    NoKeywordLettersIsNegative("I am not feeling well");
  }

  // ---------------------------------------------------------------------------
  // getTextToSpeech and getSignLanguageTranslation

  datatype GenerateSpeechInput = GenerateSpeechInput(text: string)
  datatype GenerateSpeechOutput = GenerateSpeechOutput(media: string)

  const MockSpeechPayload: string := "UklGRiQAAABXQVZFZm10IBAAAAABAAEARKwAAIhYAQACABAAAABkYXRhAAAAA"

  /** The fixed speech URI both mocks return. */
  const MockSpeechUri: string := SignLanguageTranslation.WavDataUriPrefix + MockSpeechPayload

  const MockTranslatedText: string :=
    "Hello! Thank you for using KindMind. This is a demonstration of the sign language translation feature."

  const MockConfidenceScore: real := 0.92

  /** The mock speech: a WAV data URI with a fixed payload, whatever the text. */
  function GetTextToSpeech(input: GenerateSpeechInput): (r: GenerateSpeechOutput)
    ensures SignLanguageTranslation.WavDataUriPrefix <= r.media
    ensures SignLanguageTranslation.Base64Payload(r.media) == MockSpeechPayload
  {
    SignLanguageTranslation.WavDataUriPayload(MockSpeechPayload);
    GenerateSpeechOutput(media := MockSpeechUri)
  }

  /** The mock translation: fixed text, the mock speech URI, confidence 0.92 and no emotion. */
  function GetSignLanguageTranslation(input: SignLanguageTranslation.SignLanguageTranslationInput)
    : (r: SignLanguageTranslation.SignLanguageTranslationOutput)
    ensures r.translatedText == MockTranslatedText
    ensures SignLanguageTranslation.WavDataUriPrefix <= r.translatedSpeechUri
    ensures SignLanguageTranslation.Base64Payload(r.translatedSpeechUri) == MockSpeechPayload
    ensures 0.0 <= r.confidenceScore <= 1.0 && r.confidenceScore == 0.92
    ensures r.emotion == Wrappers.None
  {
    SignLanguageTranslation.WavDataUriPayload(MockSpeechPayload);
    SignLanguageTranslation.SignLanguageTranslationOutput(
      translatedText := MockTranslatedText,
      translatedSpeechUri := MockSpeechUri,
      confidenceScore := MockConfidenceScore,
      emotion := Wrappers.None)
  }

  /** Both mocks ignore their input and return the same speech URI. */
  lemma MocksIgnoreInput(
    s1: GenerateSpeechInput, s2: GenerateSpeechInput,
    t1: SignLanguageTranslation.SignLanguageTranslationInput, t2: SignLanguageTranslation.SignLanguageTranslationInput)
    ensures GetTextToSpeech(s1) == GetTextToSpeech(s2)
    ensures GetSignLanguageTranslation(t1) == GetSignLanguageTranslation(t2)
    ensures GetTextToSpeech(s1).media == GetSignLanguageTranslation(t1).translatedSpeechUri
  {
  }
}
