/**
 * The translate-then-speak flow of src/ai/flows/sign-language-translation.ts.
 *
 * The two generative calls (the translation prompt and the text-to-speech model) are the
 * fields of a `Provider`; base64 decoding, the external WAV writer and base64 encoding are
 * the fields of an `AudioCodec`. What the repository itself does around them (the null
 * checks that throw, the payload extraction after the first comma, the data-URI prefix and
 * the copying of fields into the result) is written out.
 */
module SignLanguageTranslation {
  import opened Wrappers
  import opened Strings

  newtype byte = x: int | 0 <= x < 256

  datatype SignLanguageTranslationInput = SignLanguageTranslationInput(videoDataUri: string)

  /**
   * The flow's result. `emotion` is optional because the gateway's mock result leaves it out,
   * although the declared output schema lists it.
   */
  datatype SignLanguageTranslationOutput = SignLanguageTranslationOutput(
    translatedText: string,
    translatedSpeechUri: string,
    confidenceScore: real,
    emotion: Option<string>)

  /** The output schema of the translation prompt. */
  datatype PromptOutput = PromptOutput(translatedText: string, confidenceScore: real, emotion: string)

  /** The `media` part of a text-to-speech response. */
  datatype Media = Media(url: string)

  /** The options handed to the WAV writer. */
  datatype WavWriterOptions = WavWriterOptions(channels: nat, sampleRate: nat, bitDepth: nat)

  /** The remote calls: `None` stands for a missing `output` or a missing `media`. */
  datatype Provider = Provider(
    translatePrompt: SignLanguageTranslationInput -> Option<PromptOutput>,
    generateSpeech: string -> Option<Media>)

  /** `Buffer.from(_, 'base64')`, the `wav` package's writer, and `toString('base64')`. */
  datatype AudioCodec = AudioCodec(
    decodeBase64: string -> seq<byte>,
    writeWav: (WavWriterOptions, seq<byte>) -> seq<byte>,
    encodeBase64: seq<byte> -> string)

  const WavDataUriHeader: string := "data:audio/wav;base64"
  const WavDataUriPrefix: string := WavDataUriHeader + ","

  const NoMediaError: string := "no media returned"
  const TranslationFailedError: string := "Failed to translate sign language."
  const SpeechFailedError: string := "Failed to generate speech from text."

  /** The writer options `toWav` builds from its parameters: the bit depth is eight times the sample width. */
  function WriterOptions(channels: nat, rate: nat, sampleWidth: nat): (o: WavWriterOptions)
    ensures o.channels == channels && o.sampleRate == rate
    ensures o.bitDepth == 8 * sampleWidth
  {
    WavWriterOptions(channels, rate, sampleWidth * 8)
  }

  /** `toWav`: the PCM data goes through the WAV writer and comes back base64-encoded. */
  function ToWav(codec: AudioCodec, pcmData: seq<byte>, channels: nat := 1, rate: nat := 24000, sampleWidth: nat := 2): (b64: string)
    ensures b64 == codec.encodeBase64(codec.writeWav(WavWriterOptions(channels, rate, 8 * sampleWidth), pcmData))
  {
    codec.encodeBase64(codec.writeWav(WriterOptions(channels, rate, sampleWidth), pcmData))
  }

  /** With its default parameters `toWav` writes mono audio at 24000 Hz with 16-bit samples. */
  lemma ToWavDefaults(codec: AudioCodec, pcmData: seq<byte>)
    ensures ToWav(codec, pcmData) == codec.encodeBase64(codec.writeWav(WavWriterOptions(1, 24000, 16), pcmData))
  {
  }

  /**
   * `url.substring(url.indexOf(',') + 1)`: everything after the first comma, or the whole
   * URL when it has no comma (`indexOf` gives -1).
   */
  function Base64Payload(url: string): (payload: string)
    ensures |payload| <= |url| && payload == url[|url| - |payload|..]
    ensures ',' !in url ==> payload == url
    ensures ',' in url ==> |payload| < |url| && url[|url| - |payload| - 1] == ','
                           && ',' !in url[..|url| - |payload| - 1]
  {
    var k := IndexOf(url, ',');
    assert ',' in url ==> url[..|url| - |url[k + 1..]| - 1] == url[..k];
    url[k + 1..]
  }

  /** A payload written after a comma-free header and a comma is read back unchanged. */
  lemma PayloadAfterHeader(header: string, payload: string)
    requires ',' !in header
    ensures Base64Payload(header + "," + payload) == payload
  {
    IndexOfAfterPrefix(header, ',', payload);
    assert header + "," + payload == header + [','] + payload;
    assert (header + [','] + payload)[|header| + 1..] == payload;
  }

  /** The payload of a WAV data URI built from the fixed prefix is the text after the prefix. */
  lemma WavDataUriPayload(payload: string)
    ensures WavDataUriPrefix <= WavDataUriPrefix + payload
    ensures Base64Payload(WavDataUriPrefix + payload) == payload
  {
    PayloadAfterHeader(WavDataUriHeader, payload);
  }

  /**
   * `textToSpeech`: request speech for `text`; fail with 'no media returned' when the
   * response has no media; otherwise decode the payload of the media URL, re-encode it as WAV
   * and prefix the WAV data-URI header.
   */
  function TextToSpeech(text: string, provider: Provider, codec: AudioCodec): (r: Result<string, string>)
    ensures r.Failure? <==> provider.generateSpeech(text).None?
    ensures r.Failure? ==> r.error == NoMediaError
    ensures r.Success? ==> WavDataUriPrefix <= r.value && |r.value| > 0
    ensures r.Success? ==>
      r.value[|WavDataUriPrefix|..]
        == ToWav(codec, codec.decodeBase64(Base64Payload(provider.generateSpeech(text).value.url)))
  {
    match provider.generateSpeech(text)
    case None => Failure(NoMediaError)
    case Some(media) =>
      var audioBuffer := codec.decodeBase64(Base64Payload(media.url));
      Success(WavDataUriPrefix + ToWav(codec, audioBuffer))
  }

  /** The payload of a generated speech URI is exactly the encoder's output. */
  lemma SpeechUriPayload(text: string, provider: Provider, codec: AudioCodec)
    requires TextToSpeech(text, provider, codec).Success?
    ensures Base64Payload(TextToSpeech(text, provider, codec).value)
            == ToWav(codec, codec.decodeBase64(Base64Payload(provider.generateSpeech(text).value.url)))
  {
    WavDataUriPayload(ToWav(codec, codec.decodeBase64(Base64Payload(provider.generateSpeech(text).value.url))));
  }

  /**
   * `translateSignLanguageFlow`: translate the video, fail when the prompt gives no output,
   * turn the translated text into speech, fail on an empty speech URI, and copy the
   * translation fields into the result.
   */
  function TranslateSignLanguageFlow(input: SignLanguageTranslationInput, provider: Provider, codec: AudioCodec)
    : (r: Result<SignLanguageTranslationOutput, string>)
    ensures provider.translatePrompt(input).None? ==> r == Failure(TranslationFailedError)
    ensures provider.translatePrompt(input).Some? ==>
      var out := provider.translatePrompt(input).value;
      && (provider.generateSpeech(out.translatedText).None? ==> r == Failure(NoMediaError))
      && (r.Success? <==> provider.generateSpeech(out.translatedText).Some?)
    ensures r.Success? ==>
      var out := provider.translatePrompt(input).value;
      && r.value.translatedText == out.translatedText
      && r.value.confidenceScore == out.confidenceScore
      && r.value.emotion == Some(out.emotion)
      && r.value.translatedSpeechUri == TextToSpeech(out.translatedText, provider, codec).value
    ensures r != Failure(SpeechFailedError)
  {
    match provider.translatePrompt(input)
    case None => Failure(TranslationFailedError)
    case Some(translationOutput) =>
      match TextToSpeech(translationOutput.translatedText, provider, codec)
      case Failure(e) => Failure(e)
      case Success(speechUri) =>
        if |speechUri| == 0 then Failure(SpeechFailedError)
        else
          Success(SignLanguageTranslationOutput(
            translatedText := translationOutput.translatedText,
            translatedSpeechUri := speechUri,
            confidenceScore := translationOutput.confidenceScore,
            emotion := Some(translationOutput.emotion)))
  }

  /** Without a translation the speech model is never consulted: any two speech models give the same failure. */
  lemma NoSpeechWithoutTranslation(input: SignLanguageTranslationInput, p: Provider, q: Provider, codec: AudioCodec)
    requires p.translatePrompt(input).None? && p.translatePrompt(input) == q.translatePrompt(input)
    ensures TranslateSignLanguageFlow(input, p, codec) == TranslateSignLanguageFlow(input, q, codec)
  {
  }

  /**
   * Speech is requested for the translated text and nothing else: providers that agree on the
   * translation and on the speech for its text give the same result.
   */
  lemma SpeechOnlyForTranslatedText(input: SignLanguageTranslationInput, p: Provider, q: Provider, codec: AudioCodec)
    requires p.translatePrompt(input) == q.translatePrompt(input)
    requires p.translatePrompt(input).Some?
    requires p.generateSpeech(p.translatePrompt(input).value.translatedText)
             == q.generateSpeech(p.translatePrompt(input).value.translatedText)
    ensures TranslateSignLanguageFlow(input, p, codec) == TranslateSignLanguageFlow(input, q, codec)
  {
  }

  /** A successful translation carries a WAV data URI whose payload is the encoded speech. */
  lemma TranslatedSpeechIsWavDataUri(input: SignLanguageTranslationInput, provider: Provider, codec: AudioCodec)
    requires TranslateSignLanguageFlow(input, provider, codec).Success?
    ensures
      var out := provider.translatePrompt(input).value;
      var uri := TranslateSignLanguageFlow(input, provider, codec).value.translatedSpeechUri;
      && WavDataUriPrefix <= uri
      && Base64Payload(uri)
         == ToWav(codec, codec.decodeBase64(Base64Payload(provider.generateSpeech(out.translatedText).value.url)))
  {
    SpeechUriPayload(provider.translatePrompt(input).value.translatedText, provider, codec);
  }
}
