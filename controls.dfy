/**
 The enable conditions of the page's two action buttons, and the guard and
 request construction of speech generation.
 */
module Controls {
  import opened Strings
  import opened Replies
  import opened Voices

  /** The longest text, in characters, the Generate button accepts. */
  const MaxTextLength := 5000

  /** The synthesis model every request names. */
  const ModelId := "eleven_multilingual_v2"

  /** What `validateInput` sets: whether Generate is enabled, and whether the
      length error is shown. */
  datatype InputCheck = InputCheck(generateEnabled: bool, lengthError: bool)

  /** `validateInput`: Generate needs a key, a selected voice and some
      non-whitespace text of at most MaxTextLength characters; the limit is
      checked on the untrimmed text. */
  function ValidateInput(apiKey: string, selected: Option<Voice>, text: string): (c: InputCheck)
    ensures c.generateEnabled <==>
      apiKey != "" && selected.Some? && (exists k :: 0 <= k < |text| && !IsJsWhitespace(text[k])) && |text| <= MaxTextLength
    ensures c.lengthError <==> |text| > MaxTextLength
    ensures c.lengthError ==> !c.generateEnabled
  {
    var hasText := |Trim(text)| > 0;
    InputCheck(apiKey != "" && selected.Some? && hasText && |text| <= MaxTextLength, |text| > MaxTextLength)
  }

  /** `validateCustomVoiceInput`: Add is disabled while the voice-id box holds
      only whitespace or no key has been accepted. */
  function AddDisabled(idInput: string, apiKey: string): (disabled: bool)
    ensures !disabled <==> apiKey != "" && exists k :: 0 <= k < |idInput| && !IsJsWhitespace(idInput[k])
  {
    Trim(idInput) == "" || apiKey == ""
  }

  /** The positions of the four setting sliders. They are passed through
      unchanged; their parsing and formatting are not modelled. */
  datatype Sliders = Sliders(speed: real, stability: real, similarity: real, style: real)

  /** The `voice_settings` object of a synthesis request. */
  datatype VoiceSettings = VoiceSettings(stability: real, similarityBoost: real, style: real, useSpeakerBoost: bool)

  /** The three calls the page makes, each carrying the key in `xi-api-key`. */
  datatype Request =
    | ListVoices(apiKey: string)                   // GET /v1/voices
    | GetVoice(apiKey: string, voiceId: string)    // GET /v1/voices/{voiceId}
    | TextToSpeech(apiKey: string, voiceId: string, text: string, modelId: string, settings: VoiceSettings)
                                                   // POST /v1/text-to-speech/{voiceId}

  datatype GenerateError =
    | EmptyText                       // 'Vui lòng nhập văn bản'
    | NoVoiceSelected                 // 'Vui lòng chọn giọng đọc'
    | SpeechRejected(detail: string)  // 'Lỗi tạo giọng nói: ' + detail

  /** The guard at the top of `generateSpeech` and the request it then sends.
      The text check comes first; the key and the length limit are not
      checked again here. */
  function SpeechRequest(apiKey: string, selected: Option<Voice>, textInput: string, sliders: Sliders): (r: Result<Request, GenerateError>)
    ensures r == Failure(EmptyText) <==> Blank(textInput)
    ensures r == Failure(NoVoiceSelected) <==> !Blank(textInput) && selected.None?
    ensures r.Success? <==> !Blank(textInput) && selected.Some?
    ensures r.Success? ==> selected.Some? && r.value.TextToSpeech?
    ensures r.Success? ==> r.value.apiKey == apiKey && r.value.voiceId == selected.value.voiceId
    ensures r.Success? ==> r.value.text != "" && exists i :: TrimmedAt(textInput, r.value.text, i)
    ensures r.Success? ==> !IsJsWhitespace(r.value.text[0]) && !IsJsWhitespace(r.value.text[|r.value.text| - 1])
    ensures r.Success? ==> r.value.modelId == ModelId && r.value.settings.useSpeakerBoost
    ensures r.Success? ==>
      && r.value.settings.stability == sliders.stability
      && r.value.settings.similarityBoost == sliders.similarity
      && r.value.settings.style == sliders.style
  {
    var text := Trim(textInput);
    if text == "" then Failure(EmptyText)
    else if selected.None? then Failure(NoVoiceSelected)
    else
      var settings := VoiceSettings(sliders.stability, sliders.similarity, sliders.style, true);
      Success(TextToSpeech(apiKey, selected.value.voiceId, text, ModelId, settings))
  }

  /** Whenever Generate is enabled, pressing it sends a request, with the key
      and the voice the page holds and a text within the limit. */
  lemma EnabledGenerateSendsRequest(apiKey: string, selected: Option<Voice>, textInput: string, sliders: Sliders)
    requires ValidateInput(apiKey, selected, textInput).generateEnabled
    ensures var r := SpeechRequest(apiKey, selected, textInput, sliders);
      && r.Success? && r.value.apiKey != "" && r.value.voiceId == selected.value.voiceId
      && 0 < |r.value.text| <= MaxTextLength
  {
    var r := SpeechRequest(apiKey, selected, textInput, sliders);
    var i :| TrimmedAt(textInput, r.value.text, i);
  }

  /** How a synthesis reply reads to `generateSpeech`. */
  datatype SpeechReply =
    | Audio(data: seq<bv8>)
    | HttpError(status: nat, statusText: string, detailMessage: string)
    | NetworkError(message: string)

  /** The reason shown after a failed synthesis: the service's
      `detail.message` when it sent one, else the status line. */
  function FailureDetail(reply: SpeechReply): (detail: string)
    requires !reply.Audio?
    ensures reply.HttpError? && reply.detailMessage != "" ==> detail == reply.detailMessage
    ensures reply.HttpError? && reply.detailMessage == "" ==>
      detail == "HTTP " + DecimalString(reply.status) + ": " + reply.statusText
    ensures reply.NetworkError? ==> detail == reply.message
  {
    match reply
    case HttpError(status, statusText, message) =>
      if message != "" then message
      else
        "HTTP " + DecimalString(status) + ": " + statusText
    case NetworkError(message) => message
  }
}
