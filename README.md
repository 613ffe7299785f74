# KindMind gateway actions and translate-then-speak flow, in Dafny

KindMind is an accessibility assistant. Its UI pages call a small set of server-side gateway
actions. Those actions can forward requests to a hosted generative-AI provider, but as the code
stands each one returns a mock. This project models the part of the repository that is
deterministic:

- **Gateway actions** (`src/app/actions.ts`, module `Actions`):
  - `getAccessibilitySuggestions` derives a UI configuration from an enum-valued profile.
  - `getEmpatheticResponse` is a keyword classifier. It checks whether the lower-cased input
    includes `happy` or `good`.
  - `getTextToSpeech` and `getSignLanguageTranslation` return constants.
- **Translate-then-speak flow** (`src/ai/flows/sign-language-translation.ts`, module
  `SignLanguageTranslation`):
  - `textToSpeech` takes the base64 payload after the first comma of the returned media URL,
    passes it through the WAV writer and prefixes `data:audio/wav;base64,`.
  - `translateSignLanguageFlow` runs the translation prompt and then text-to-speech for the
    translated text. It fails when either step yields nothing, and it copies the translation
    fields into the result.

Supporting modules:
- `Accessibility` holds the enums and records of `src/ai/flows/adaptive-accessibility-ui.ts`.
- `Strings` holds ASCII `toLowerCase`, `includes` and single-character `indexOf`, with their
  characterising lemmas.
- `Mood` holds the documented range of a mood score.
- `Wrappers` holds `Option` and `Result`.

The remote calls are inputs of the model. A `Provider` value holds the translation prompt and
the speech model as function values; `None` stands for a missing `output` or `media`. An
`AudioCodec` value holds the three external byte transformations: base64 decoding, the `wav`
package's writer, and base64 encoding. Thrown errors become `Failure(message)` values with the
source's messages.

Facts about the code that shape the model:
- The mock sentiment classifier has two outcomes: positive or not.
- The mock returns `{sentimentScore, suggestedActions}`, although its declared type is `{response}`.
- The mock translation leaves out `emotion`, so the output record carries
  `emotion: Option<string>`: the mock gives `None`, the live flow `Some`.
- The flow's failures are plain `Error` messages: `'Failed to translate sign language.'`,
  `'no media returned'` and `'Failed to generate speech from text.'`.

## Model

| member | source | states |
|---|---|---|
| Actions.GetAccessibilitySuggestions | src/app/actions.ts:12-28 | font size is always "large", contrast "high", language "en"; voice navigation on exactly when motor need is mild, moderate or severe; gesture control on exactly when motor need is severe; sign-language support on exactly when the preferred mode is sign |
| Actions.GestureControlImpliesVoiceNavigation | src/app/actions.ts:23-24 | whenever gesture control is enabled, voice navigation is enabled too |
| Actions.SuggestionsDependOnMotorAndModeOnly | src/app/actions.ts:20-27 | two profiles with the same motor need and communication mode get the same configuration, so vision and cognitive needs never matter |
| Actions.GetEmpatheticResponse | src/app/actions.ts:40-55 | positive input gets score 0.8 and the "wonderful / keep embracing" pair, other input gets -0.4 and the "deep breaths / journal" pair; the score is positive exactly for positive input; always two actions; the score lies in the mood range [-1, 1] |
| Actions.IsPositive | src/app/actions.ts:48 | input is positive exactly when "happy" or "good" occurs as a substring of its lower-cased form |
| Actions.EmpatheticResponseIgnoresCase | src/app/actions.ts:48 | inputs that differ only in ASCII letter case get identical responses |
| Actions.KeywordOccurrenceIsPositive | src/app/actions.ts:48 | an occurrence of either keyword at any position of the lower-cased input makes it positive |
| Actions.LowercaseGoodIsPositive | src/app/actions.ts:48 | an input with no upper-case letter in which "good" occurs at some index is positive |
| Actions.GoodbyeIsPositive | src/app/actions.ts:48 | substrings count: "goodbye" is positive |
| Actions.NotGoodIsPositive | src/app/actions.ts:48 | negation is not recognised: "not good" is positive |
| Actions.UpperCaseKeywordIsPositive | src/app/actions.ts:48 | "HAPPY" is positive, because matching happens after lower-casing |
| Actions.NoKeywordLettersIsNegative | src/app/actions.ts:48-53 | an input without the letters h and d in either case is never positive |
| Actions.NotFeelingWellIsNegative | src/app/actions.ts:48-54 | "I am not feeling well" gets score -0.4 and the supportive pair |
| Actions.GetTextToSpeech | src/app/actions.ts:30-38 | for every input the speech URI starts with "data:audio/wav;base64," and its payload after the first comma is the fixed mock payload |
| Actions.GetSignLanguageTranslation | src/app/actions.ts:57-71 | for every input: the fixed demonstration text, the mock WAV data URI, confidence 0.92 (inside [0, 1]) and no emotion field |
| Actions.MocksIgnoreInput | src/app/actions.ts:37-70 | both mocks return the same value for any two inputs, and both return the same speech URI |
| Strings.LowerChar | src/app/actions.ts:48 | ASCII upper-case letters map to the letter 32 code points higher, which is lower case; every other character is unchanged |
| Strings.ToLower | src/app/actions.ts:48 | the lower-cased string has the same length and is the character-wise lower-casing of the input |
| Strings.ToLowerIgnoresCase | src/app/actions.ts:48 | strings that agree up to ASCII case lower-case to the same string |
| Strings.ToLowerKeepsLowercase | src/app/actions.ts:48 | a string with no upper-case ASCII letter is unchanged by lower-casing |
| Strings.Includes | src/app/actions.ts:48 | `includes` never holds for a pattern longer than the string, and always holds for the empty pattern |
| Strings.IncludesIffOccurs | src/app/actions.ts:48 | `includes` holds exactly when the pattern occurs at some index |
| Strings.IncludedCharsOccur | src/app/actions.ts:48 | every character of an included pattern occurs in the string |
| Strings.OccurrenceIncludes | src/app/actions.ts:48 | an occurrence at any index means `includes` holds |
| Strings.IndexOf | src/ai/flows/sign-language-translation.ts:110 | the result is -1 exactly when the character is absent; otherwise it is an index holding the character with no earlier occurrence |
| Strings.IndexOfAfterPrefix | src/ai/flows/sign-language-translation.ts:110 | in prefix + c + rest with a c-free prefix, the first c is at the prefix's length |
| SignLanguageTranslation.WriterOptions | src/ai/flows/sign-language-translation.ts:73-77 | the writer gets the given channel count and sample rate, and a bit depth of eight times the sample width |
| SignLanguageTranslation.ToWav | src/ai/flows/sign-language-translation.ts:65-91 | the result is the base64 encoding of what the WAV writer produces from the PCM data, with the given channel count and sample rate and a bit depth of eight times the sample width |
| SignLanguageTranslation.ToWavDefaults | src/ai/flows/sign-language-translation.ts:65-77 | with its default parameters the WAV writer is configured for 1 channel, 24000 Hz and 16 bits |
| SignLanguageTranslation.Base64Payload | src/ai/flows/sign-language-translation.ts:109-112 | the payload is a suffix of the URL; with no comma it is the whole URL; otherwise it starts right after the URL's first comma |
| SignLanguageTranslation.PayloadAfterHeader | src/ai/flows/sign-language-translation.ts:109-113 | a payload written after a comma-free header and a comma is extracted back unchanged |
| SignLanguageTranslation.WavDataUriPayload | src/ai/flows/sign-language-translation.ts:109-113 | a URI built from the "data:audio/wav;base64," prefix starts with that prefix, and extracting its payload after the first comma gives back exactly what followed the prefix |
| SignLanguageTranslation.TextToSpeech | src/ai/flows/sign-language-translation.ts:93-114 | fails with 'no media returned' exactly when the speech model returns no media; otherwise the URI is non-empty, starts with "data:audio/wav;base64," and continues with the WAV encoding of the decoded payload of the media URL |
| SignLanguageTranslation.SpeechUriPayload | src/ai/flows/sign-language-translation.ts:109-113 | extracting the payload of a generated speech URI gives back exactly the encoder's output |
| SignLanguageTranslation.TranslateSignLanguageFlow | src/ai/flows/sign-language-translation.ts:116-142 | no prompt output gives 'Failed to translate sign language.'; no media gives 'no media returned'; it succeeds exactly when both calls return something; on success text, confidence and emotion are copied and the speech URI is the one generated for the translated text; 'Failed to generate speech from text.' is never returned |
| SignLanguageTranslation.NoSpeechWithoutTranslation | src/ai/flows/sign-language-translation.ts:123-127 | without prompt output the result does not depend on the speech model at all, so speech is never requested |
| SignLanguageTranslation.SpeechOnlyForTranslatedText | src/ai/flows/sign-language-translation.ts:129 | providers that agree on the translation and on the speech for its translated text give the same result, so speech is requested only for that text |
| SignLanguageTranslation.TranslatedSpeechIsWavDataUri | src/ai/flows/sign-language-translation.ts:129-140 | a successful result's speech URI is a WAV data URI whose payload is the encoded speech of the translated text |

## Left out

- Provider calls (`ai.generate` and the prompt built by `ai.definePrompt`, with the prompt texts and the model and voice names) are remote and non-deterministic. They are the `Provider` function values.
- `ai.defineFlow` only registers the repository's own flow body, which is `SignLanguageTranslation.TranslateSignLanguageFlow`. The wrapper's validation of the flow's input and output against `inputSchema` and `outputSchema` is not modelled. The flow always returns all four fields, so that validation cannot fail on a result the model produces.
- TypeScript numbers (IEEE doubles) are Dafny `real`: `sentimentScore`, the constants 0.8, -0.4 and 0.92, and `confidenceScore`. This is safe because the model only uses these constants, compares them with 0 and with the bounds -1 and 1, and copies them unchanged, and all of that is exact in both.
- SignLanguageTranslation.TextToSpeech / SignLanguageTranslation.TranslateSignLanguageFlow: a provider call that throws (a network failure or a failed output-schema validation in `ai.generate` or `translateSignLanguagePrompt`) propagates its own error unchanged out of `textToSpeech` and the flow. So does a rejection of `toWav`, either through the writer's `error` event or a failing `import('wav')`. The model does not represent this: its `Provider` calls and `AudioCodec` transformations always return, with `None` standing only for a missing `output` or `media`. So "fails exactly when …" in these contracts covers only the failures the repository's own code raises.
- The `wav` package's container encoding and Node's base64 codec are external. They are the `AudioCodec` function values. The model states only the writer's options, not the header layout.
- The event-driven collection of writer chunks in `toWav`, the `Promise` around it and its `error` rejection are plumbing around the external writer. They are not modelled.
- Strings.ToLower: maps only ASCII letters, not full Unicode case mapping as `toLowerCase` does.
- The live branches of the gateway actions exist only as commented-out code, so they are not modelled. Neither are `console.log`, the Firestore comments or `translateSignLanguage`, which only forwards to the flow.
- The mock speech constant is not claimed to be valid base64 or valid WAV: nothing in the code relies on either.
- `src/ai/flows/ai-speech-generation.ts` is not part of this model. The `{text}` input and `{media}` output of `getTextToSpeech` are taken from how `src/app/actions.ts` uses them.
- The empathetic companion flow, the sentiment analyzer and the accessibility-UI flow are single provider calls. For the accessibility-UI flow, only its enum schema supplies the `Accessibility` datatypes. The sentiment analyzer casts the provider's score to `MoodScore` without a range check, so no range is claimed for it.
- UI pages, the header's title lookup, routing and camera handling are out of scope.
