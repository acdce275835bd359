/**
 * The two session-less endpoints (app.py:67-125). Neither substitutes a
 * fallback: every provider failure is reported to the caller as an error
 * object carrying the provider's own text or the exception's message.
 */
module Endpoints {
  import opened Wrappers
  import opened Providers

  /** Body of /generate-voice: `{audio_url}` or `{error}`. */
  datatype VoiceResponse = VoiceAudio(audioUrl: Option<string>) | VoiceError(error: string)

  /** Body of /echo: `{transcription, audio_url}` or `{error}`. */
  datatype EchoResponse = EchoReply(transcription: string, audioUrl: Option<string>) | EchoError(error: string)

  /** The fixed error of /echo when the transcript is missing or empty. */
  const CouldNotTranscribe := "Could not transcribe audio."

  /** A synthesis stage without fallback: the reported audio file, or the text of the failure. */
  datatype Synthesis = Audio(url: Option<string>) | Failed(message: string)

  /**
   * What a synthesis outcome becomes in the two session-less endpoints: the
   * audio file reported on status 200, the raw body on any other status,
   * the exception's message when the call or the decoding raised.
   */
  function SynthesisResult(o: TtsOutcome): (r: Synthesis)
    ensures r.Audio? <==> o.HttpResponse? && o.status == 200 && o.audioFile.AudioFile?
    ensures r.Audio? ==> o.audioFile == AudioFile(r.url)
    ensures o.HttpResponse? && o.status != 200 ==> r == Failed(o.text)
    ensures o.TransportError? ==> r == Failed(o.message)
    ensures o.HttpResponse? && o.status == 200 && o.audioFile.JsonError? ==> r == Failed(o.audioFile.message)
  {
    match o
    case TransportError(msg) => Failed(msg)
    case HttpResponse(status, text, field) =>
      if status == 200 then
        match field
        case JsonError(msg) => Failed(msg)
        case AudioFile(url) => Audio(url)
      else Failed(text)
  }

  /** POST /generate-voice. */
  function GenerateVoice(text: string, tts: TtsCall -> TtsOutcome): (r: VoiceResponse)
    ensures var o := tts(GenerateVoiceCall(text));
      && (r.VoiceAudio? <==> o.HttpResponse? && o.status == 200 && o.audioFile.AudioFile?)
      && (r.VoiceAudio? ==> o.audioFile == AudioFile(r.audioUrl))
      && (o.HttpResponse? && o.status != 200 ==> r == VoiceError(o.text))
      && (o.TransportError? ==> r == VoiceError(o.message))
      && (o.HttpResponse? && o.status == 200 && o.audioFile.JsonError? ==> r == VoiceError(o.audioFile.message))
  {
    match SynthesisResult(tts(GenerateVoiceCall(text)))
    case Audio(url) => VoiceAudio(url)
    case Failed(msg) => VoiceError(msg)
  }

  /** POST /echo: transcribe, then speak the transcript back. */
  function EchoAudio(upload: Upload, stt: Audio -> SttOutcome, tts: TtsCall -> TtsOutcome): (r: EchoResponse)
    ensures upload.ReadError? ==> r == EchoError(upload.message)
    ensures upload.ReadOk? && stt(upload.audio).SttRaised? ==> r == EchoError(stt(upload.audio).message)
    ensures upload.ReadOk? && stt(upload.audio).Transcript? && HeardText(stt(upload.audio)).None?
      ==> r == EchoError(CouldNotTranscribe)
    ensures r.EchoReply? ==>
      && upload.ReadOk?
      && HeardText(stt(upload.audio)) == Some(r.transcription)
      && tts(EchoCall(r.transcription)).HttpResponse?
      && tts(EchoCall(r.transcription)).status == 200
      && tts(EchoCall(r.transcription)).audioFile == AudioFile(r.audioUrl)
    ensures upload.ReadOk? && HeardText(stt(upload.audio)).Some? ==>
      var t := HeardText(stt(upload.audio)).value;
      var o := tts(EchoCall(t));
      && (o.HttpResponse? && o.status == 200 && o.audioFile.AudioFile? ==> r == EchoReply(t, o.audioFile.url))
      && (o.HttpResponse? && o.status == 200 && o.audioFile.JsonError? ==> r == EchoError(o.audioFile.message))
      && (o.HttpResponse? && o.status != 200 ==> r == EchoError(o.text))
      && (o.TransportError? ==> r == EchoError(o.message))
  {
    match upload
    case ReadError(msg) => EchoError(msg)
    case ReadOk(audio) =>
      match stt(audio)
      case SttRaised(msg) => EchoError(msg)
      case Transcript(_) =>
        match HeardText(stt(audio))
        case None => EchoError(CouldNotTranscribe)
        case Some(text) =>
          match SynthesisResult(tts(EchoCall(text)))
          case Audio(url) => EchoReply(text, url)
          case Failed(msg) => EchoError(msg)
  }

  /** A missing or empty transcript never reaches the synthesiser: any two synthesisers give the same answer. */
  lemma EchoSilenceSkipsSynthesis(upload: Upload, stt: Audio -> SttOutcome, tts1: TtsCall -> TtsOutcome, tts2: TtsCall -> TtsOutcome)
    requires upload.ReadOk? && HeardText(stt(upload.audio)).None?
    ensures EchoAudio(upload, stt, tts1) == EchoAudio(upload, stt, tts2)
  {
  }
}
