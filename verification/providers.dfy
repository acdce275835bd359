/**
 * The three remote services and the upload, seen as the outcomes the relay
 * receives from them (app.py). Nothing here performs a call: each endpoint
 * takes the speech-to-text, language-model and text-to-speech services as
 * functions from their request to their outcome.
 */
module Providers {
  import opened Wrappers

  /** Raw bytes of an uploaded audio file. */
  type Audio = seq<bv8>

  /** Reading the multipart upload: its bytes, or the message of the exception it raised. */
  datatype Upload = ReadOk(audio: Audio) | ReadError(message: string)

  /**
   * The speech-to-text call: either it raised (with the exception's message)
   * or it produced a transcript whose text may be missing or empty.
   */
  datatype SttOutcome = SttRaised(message: string) | Transcript(text: Option<string>)

  /**
   * `response.json().get("audioFile")`: decoding the body may raise, and a
   * decoded body may lack the field.
   */
  datatype AudioFileField = JsonError(message: string) | AudioFile(url: Option<string>)

  /**
   * The text-to-speech HTTP call: a transport failure (the exception's
   * message), or a response with its status code, raw body text, and what
   * decoding the body for "audioFile" gives.
   */
  datatype TtsOutcome =
    | TransportError(message: string)
    | HttpResponse(status: int, text: string, audioFile: AudioFileField)

  /** One text-to-speech request: the JSON payload fields in order and the timeout in seconds, if any. */
  datatype TtsCall = TtsCall(payload: seq<(string, string)>, timeout: Option<nat>)

  /**
   * The user's words, or None when the transcript stage fails: the call
   * raised, or its text is missing or empty (all three count as failure).
   */
  function HeardText(o: SttOutcome): (heard: Option<string>)
    ensures heard.Some? <==> o.Transcript? && o.text.Some? && o.text.value != ""
    ensures heard.Some? ==> heard.value == o.text.value
  {
    match o
    case SttRaised(_) => None
    case Transcript(None) => None
    case Transcript(Some(t)) => if t == "" then None else Some(t)
  }

  /** The value of the "text" field of a payload, if it has one. */
  function PayloadText(payload: seq<(string, string)>): Option<string>
  {
    if payload == [] then None
    else if payload[0].0 == "text" then Some(payload[0].1)
    else PayloadText(payload[1..])
  }

  /** The request of /generate-voice: the simple voice, a 10-second timeout. */
  function GenerateVoiceCall(text: string): TtsCall
  {
    TtsCall([("voiceId", "en-US-miles"), ("text", text)], Some(10))
  }

  /** The request of /echo: the simple voice, and no timeout. */
  function EchoCall(text: string): TtsCall
  {
    TtsCall([("voiceId", "en-US-miles"), ("text", text)], None)
  }

  /** The request of the chat pipeline: a styled voice with a locale, a 10-second timeout. */
  function ChatCall(text: string): TtsCall
  {
    TtsCall([("voice_id", "it-IT-giorgio"), ("style", "Narration"), ("multiNativeLocale", "en-US"), ("text", text)], Some(10))
  }

  /** Every endpoint asks the synthesiser to speak exactly the text it was given. */
  lemma CallsSpeakTheirText(text: string)
    ensures PayloadText(GenerateVoiceCall(text).payload) == Some(text)
    ensures PayloadText(EchoCall(text).payload) == Some(text)
    ensures PayloadText(ChatCall(text).payload) == Some(text)
    ensures GenerateVoiceCall(text).timeout == ChatCall(text).timeout == Some(10)
    ensures EchoCall(text).timeout == None
  {
    var chat := ChatCall(text).payload;
    assert PayloadText(chat) == PayloadText(chat[1..]) == PayloadText(chat[2..]) == PayloadText(chat[3..]);
  }
}
