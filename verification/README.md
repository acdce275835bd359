# Voice agent relay — a Dafny model

This project models the request handling of a small voice-agent web service
(`app.py`). The service accepts an audio upload and sends it to a
speech-to-text provider. It then passes the text to a language model, together
with the session's earlier turns, and sends the model's reply to a
text-to-speech provider. The caller gets back the transcript, the reply and an
audio URL.

The model covers three endpoints:

- **POST /agent/chat/{session_id}** (`Chat`). The handler keeps a process-wide
  dictionary from session id to that session's turns. Here it is the class
  `Chat.ChatAgent`, whose field `chatHistories: map<string, seq<Turn>>` is
  updated in place by the method `AgentChat`. That method is proved equal to
  the pure specification `Chat.ChatStep`, and the lemmas are stated about
  `ChatStep`. These cover:
  - each stage's failure branch;
  - the prompt the model receives;
  - append-only history;
  - a history invariant: a session starts with a user turn, every assistant
    turn follows a user turn, and no user turn is empty;
  - sequences of calls, via `Chat.Run`.
- **The prompt builder** (`Conversation`). Every turn becomes one line,
  `"<Role capitalised>: <content>"`, and the lines are joined with `"\n"`.
  This is proved to be no truncation and no reordering: splitting the prompt
  at newlines gives back one line per turn, in order, when contents have no
  line breaks.
- **POST /generate-voice and POST /echo** (`Endpoints`). These map provider
  outcomes straight to response bodies, with no fallback.

The three providers and the upload read are inputs, not calls (`Providers`):

- the upload is `ReadOk(bytes)` or `ReadError(message)`;
- speech-to-text is a function from audio to `SttRaised(message)` or
  `Transcript(Option<string>)`;
- the language model is a function from prompt to `Option<string>`;
- text-to-speech is a function from a `TtsCall` (the payload fields exactly as
  sent, and the timeout) to `TransportError(message)` or
  `HttpResponse(status, body text, audioFile field)`.

Because the model is a function, "the model is asked exactly this prompt" can
be stated as a property: any two models that answer that prompt the same way
give the same turn (`ModelSeesFullHistory`). In the same way, the echo
endpoint never calls the synthesiser on an empty transcript
(`EchoSilenceSkipsSynthesis`).

The model keeps these details of the code:

- In the chat handler, a synthesis response with status 200 whose JSON has no
  `"audioFile"` yields a null `audio_url`, not the fallback URL
  (`NullAudioOnlyWhenProviderOmitsIt`).
- In the echo endpoint, a speech-to-text exception surfaces its own message.
  A missing or empty transcript gives the fixed "Could not transcribe audio."
- The chat payload uses the key `voice_id` where the other endpoints use
  `voiceId`. It is modelled as written.

## Model

| member | source | states |
|---|---|---|
| `Conversation.Capitalize` | app.py:179 | the role label keeps the length of the role name, with the first character upper-cased and the rest lower-cased |
| `Conversation.RoleLabels` | app.py:179 | the stored roles "user" and "assistant" render as "User" and "Assistant" |
| `Conversation.RenderTurnShape` | app.py:179 | a turn's prompt line is its role label, ": ", then its content verbatim |
| `Conversation.Lines` | app.py:178-181 | one rendered line per turn, the i-th line rendering the i-th turn |
| `Conversation.PromptAppend` | app.py:178-181 | the prompt of a one-turn history is that turn's line; appending a turn to a non-empty history appends "\n" and that turn's line |
| `Conversation.JoinAppend` | app.py:178 | joining one more line with "\n" extends the joined text by a newline and that line |
| `Conversation.SplitJoin` | app.py:178 | splitting at "\n" undoes joining single-line pieces |
| `Conversation.PromptLines` | app.py:178-181 | with single-line contents, the prompt splits back into exactly the rendered history: as many lines as turns, in order, none dropped |
| `Providers.HeardText` | app.py:159-163 | the user was heard iff the transcriber returned a text that is present and non-empty, and then that text is what was heard |
| `Providers.CallsSpeakTheirText` | app.py:200-211 | each endpoint's request asks to speak exactly its text; generate-voice and chat use a 10-second timeout, echo none |
| `Endpoints.SynthesisResult` | app.py:79-88 | audio iff status 200 and the body decodes, carrying the reported audioFile; otherwise the failure text: the decoding exception's message on a 200 whose body does not decode, the raw body on any other status, the transport exception's message |
| `Endpoints.GenerateVoice` | app.py:67-88 | `{audio_url}` iff the provider answered 200 with a decodable body, carrying its audioFile (possibly null); `{error}` with the decoding exception's message on an undecodable 200 body, the body verbatim on any other status, the exception message on transport failure |
| `Endpoints.EchoAudio` | app.py:91-125 | upload or speech-to-text exceptions give their message; a missing or empty transcript gives "Could not transcribe audio."; once heard, a 200 decodable answer to the echo request gives the transcript and its audioFile, an undecodable 200 body the decoding message, a non-200 status the raw body, a transport failure its message |
| `Endpoints.EchoSilenceSkipsSynthesis` | app.py:98-100 | with a missing or empty transcript, the echo response does not depend on the synthesiser at all |
| `Chat.SpokenAudio` | app.py:195-217 | a 200 answer with a decodable body gives exactly its audioFile (null when absent); any transport error, non-200 status or undecodable body gives the fallback URL; the URL is null only in the first case with audioFile absent |
| `Chat.ChatAgent.constructor` | app.py:147 | the store starts empty and well formed |
| `Chat.ChatAgent.AgentChat` | app.py:152-232 | the response and the new store are exactly those of `ChatStep` on the old store; history stays append-only and well formed |
| `Chat.UploadFailure` | app.py:226-232 | a failed upload read gives `{error: message, llm_response: "Something went wrong. Please try again later.", audio_url: fallback}`, store unchanged |
| `Chat.TranscriptionFailure` | app.py:159-169 | a failed, missing or empty transcript gives exactly `{transcription: "", llm_response: "I'm having trouble hearing you right now.", audio_url: fallback}`; the store is unchanged and the session key is not created |
| `Chat.UserTurnRecorded` | app.py:172-174 | once heard, the session exists and its old history is followed by exactly one user turn with the heard text; other sessions keep their entry or their absence |
| `Chat.ModelSeesFullHistory` | app.py:177-183 | the language model is asked only the prompt of the full history including the new user turn: any model agreeing on that prompt gives the same outcome |
| `Chat.PromptEndsWithUserTurn` | app.py:174-181 | that prompt is the previous prompt, a newline, then "User: " and the heard text (the line alone on a fresh session) |
| `Chat.ModelFailure` | app.py:185-190 | a model failure gives `{transcription: text, llm_response: "I'm having trouble thinking right now.", audio_url: fallback}`; the user turn stays, no assistant turn is added |
| `Chat.ModelAnswered` | app.py:192-224 | on a model answer both turns are recorded whatever synthesis does; the body carries the real transcript and reply; a synthesis failure only turns the audio URL into the fallback |
| `Chat.SynthesisOnlyAffectsAudio` | app.py:195-224 | the synthesiser changes neither the store nor the transcript, the reply or the body's kind |
| `Chat.NullAudioOnlyWhenProviderOmitsIt` | app.py:212-217 | a chat reply has a null audio URL iff every stage succeeded and synthesis answered 200 with a body lacking audioFile |
| `Chat.TurnsAdded` | app.py:172-192 | one call adds at most two turns |
| `Chat.ChatStepAppendOnly` | app.py:172-192 | every old history is a prefix of the new one; the called session grows by 0 (upload or transcript failure), 1 (model failure) or 2 (model answer) turns; no other session changes and only the called session can be created |
| `Chat.ChatStepKeepsWellFormed` | app.py:161-192 | one call keeps every history well formed: it starts with a user turn, each assistant turn follows a user turn, and user turns are non-empty |
| `Chat.RunKeepsWellFormed` | app.py:172-192 | any sequence of calls keeps every history well formed |
| `Chat.RunAppendOnly` | app.py:172-192 | over any sequence of calls, every session's earlier history is a prefix of its later one |
| `Chat.RunAnsweredTurns` | app.py:172-192 | N calls on a session, each heard and answered by its model on the prompt it is actually asked, append 2N turns: per call, in call order, a user turn with that call's transcript and an assistant turn with that answer; identical calls are not deduplicated |
| `Chat.FreshSessionAlternates` | app.py:172-192 | a fresh session after N such calls holds exactly 2N turns alternating user, assistant |
| `Chat.AnsweredStep` | app.py:172-192 | a call that is heard and answered appends exactly its user turn and the model's answer to the prompt it was asked |
| `Chat.AlwaysAnsweringModelsReach` | app.py:177-183 | heard calls whose models answer every prompt satisfy the per-call hypothesis of `RunAnsweredTurns` |
| `Chat.HelloScenario` | app.py:152-224 | "Hello" in fresh session "s1", model reply "Hi there!" and a synthesised URL give that body and the history [user "Hello", assistant "Hi there!"] |

## Left out

- The network and SDK calls to the transcriber, the language model and the speech synthesiser are not modelled. They are foreign libraries and HTTP, so they are inputs here: functions from request to outcome.
- Request headers and API keys are configuration loaded from the environment. They are not modelled.
- JSON decoding of the synthesiser's body is not modelled. Its result is an input: a decoding error, or the possibly absent `audioFile` value.
- Exception messages (`str(e)`) are opaque strings supplied with the failing outcome.
- The application setup is not modelled: CORS, the static mount, the landing page and its template.
- The commented-out `/transcribe` and `/llm/query` endpoints are dead code.
- Requests for the same session interleaving while a network call is pending is concurrency. The model handles calls one at a time, in order (`Chat.Run`).
- `static/script.js` is browser UI (recording, playback, DOM updates) and is not part of this model.
- `Conversation.Capitalize` handles ASCII letters only. The string method also title-cases non-ASCII characters. Only the role names "user" and "assistant" are ever capitalised.
- `Chat.TurnsAdded` states only the bound of at most two. `Chat.ChatStepAppendOnly` and the branch lemmas say which branch adds 0, 1 or 2 turns.
