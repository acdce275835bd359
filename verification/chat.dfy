/**
 * The session-aware chat turn, POST /agent/chat/{session_id} (app.py:146-232).
 *
 * The store maps a session id to its ordered history. One turn reads the
 * upload, transcribes it, appends the user's words, asks the language model
 * with the whole history as prompt, appends its reply, and synthesises the
 * reply. Each stage's failure has its own fixed outcome; the caller always
 * gets a body, never a provider's raw error.
 */
module Chat {
  import opened Wrappers
  import opened Providers
  import opened Conversation

  const FallbackAudioUrl := "/static/fallback.mp3"
  const HearingTrouble := "I'm having trouble hearing you right now."
  const ThinkingTrouble := "I'm having trouble thinking right now."
  const GenericFailure := "Something went wrong. Please try again later."

  /** The module-level dictionary from session id to that session's turns. */
  type Store = map<string, seq<Turn>>

  /** Body of the chat endpoint: `{transcription, llm_response, audio_url}`, or `{error, llm_response, audio_url}`. */
  datatype ChatResponse =
    | ChatReply(transcription: string, llmResponse: string, audioUrl: Option<string>)
    | ChatFailure(error: string, llmResponse: string, audioUrl: Option<string>)

  /** What the outside world answers during one chat turn. */
  datatype Request = Request(
    upload: Upload,
    stt: Audio -> SttOutcome,
    llm: string -> Option<string>,
    tts: TtsCall -> TtsOutcome)

  /** The response of one turn and the store after it. */
  datatype ChatOutcome = ChatOutcome(response: ChatResponse, store: Store)

  /** One call of the endpoint: the session id in the path and what the services answer. */
  datatype Call = Call(sessionId: string, request: Request)

  /** A session's turns; a session never seen has none. */
  function History(store: Store, sid: string): seq<Turn>
  {
    if sid in store then store[sid] else []
  }

  /** The audio URL of the synthesis stage: the reported file on 200, the fallback on any failure. */
  function SpokenAudio(o: TtsOutcome): (url: Option<string>)
    ensures url.None? <==> o.HttpResponse? && o.status == 200 && o.audioFile == AudioFile(None)
    ensures o.HttpResponse? && o.status == 200 && o.audioFile.AudioFile? ==> url == o.audioFile.url
    ensures !(o.HttpResponse? && o.status == 200 && o.audioFile.AudioFile?) ==> url == Some(FallbackAudioUrl)
  {
    match o
    case HttpResponse(200, _, AudioFile(url)) => url
    case _ => Some(FallbackAudioUrl)
  }

  /** The specification of one chat turn. */
  function ChatStep(store: Store, sid: string, req: Request): ChatOutcome
  {
    match req.upload
    case ReadError(msg) =>
      ChatOutcome(ChatFailure(msg, GenericFailure, Some(FallbackAudioUrl)), store)
    case ReadOk(audio) =>
      match HeardText(req.stt(audio))
      case None =>
        ChatOutcome(ChatReply("", HearingTrouble, Some(FallbackAudioUrl)), store)
      case Some(userText) =>
        var withUser := History(store, sid) + [Turn(User, userText)];
        match req.llm(Prompt(withUser))
        case None =>
          ChatOutcome(ChatReply(userText, ThinkingTrouble, Some(FallbackAudioUrl)), store[sid := withUser])
        case Some(llmText) =>
          ChatOutcome(
            ChatReply(userText, llmText, SpokenAudio(req.tts(ChatCall(llmText)))),
            store[sid := withUser + [Turn(Assistant, llmText)]])
  }

  /**
   * The shape every history keeps: it starts with a user turn, every
   * assistant turn directly follows a user turn, and no user turn is empty.
   */
  predicate WellFormed(history: seq<Turn>)
  {
    && (|history| > 0 ==> history[0].role == User)
    && (forall i :: 0 < i < |history| && history[i].role == Assistant ==> history[i - 1].role == User)
    && (forall i :: 0 <= i < |history| && history[i].role == User ==> history[i].content != "")
  }

  predicate WellFormedStore(store: Store)
  {
    forall sid :: sid in store ==> WellFormed(store[sid])
  }

  /** The process-wide session store and the handler that updates it. */
  class ChatAgent {
    var chatHistories: Store

    ghost predicate Valid()
      reads this
    {
      WellFormedStore(chatHistories)
    }

    constructor ()
      ensures Valid()
      ensures chatHistories == map[]
    {
      chatHistories := map[];
    }

    /**
     * agent_chat: one turn of a session. The only step outside the per-stage
     * handlers that can raise is reading the upload, so the catch-all branch
     * is the upload's ReadError.
     */
    method AgentChat(sessionId: string, upload: Upload, stt: Audio -> SttOutcome,
                     llm: string -> Option<string>, tts: TtsCall -> TtsOutcome)
      returns (response: ChatResponse)
      requires Valid()
      modifies this
      ensures Valid()
      ensures ChatOutcome(response, chatHistories) == ChatStep(old(chatHistories), sessionId, Request(upload, stt, llm, tts))
      ensures AppendOnly(old(chatHistories), chatHistories)
    {
      ghost var store0 := chatHistories;
      ghost var req := Request(upload, stt, llm, tts);

      if upload.ReadError? {
        UploadFailure(store0, sessionId, req);
        response := ChatFailure(upload.message, GenericFailure, Some(FallbackAudioUrl));
      } else {
        // speech to text
        var heard := HeardText(stt(upload.audio));
        if heard.None? {
          TranscriptionFailure(store0, sessionId, req);
          response := ChatReply("", HearingTrouble, Some(FallbackAudioUrl));
        } else {
          // the session entry is created lazily, then the user turn appended
          var userText := heard.value;
          if sessionId !in chatHistories {
            chatHistories := chatHistories[sessionId := []];
          }
          chatHistories := chatHistories[sessionId := chatHistories[sessionId] + [Turn(User, userText)]];
          assert chatHistories == store0[sessionId := History(store0, sessionId) + [Turn(User, userText)]];

          // language model, prompted with the whole history
          var reply := llm(Prompt(chatHistories[sessionId]));
          if reply.None? {
            ModelFailure(store0, sessionId, req, userText);
            response := ChatReply(userText, ThinkingTrouble, Some(FallbackAudioUrl));
          } else {
            var llmText := reply.value;
            chatHistories := chatHistories[sessionId := chatHistories[sessionId] + [Turn(Assistant, llmText)]];
            ModelAnswered(store0, sessionId, req, userText, llmText);
            assert chatHistories == store0[sessionId := History(store0, sessionId) + [Turn(User, userText), Turn(Assistant, llmText)]];

            // text to speech; its failure only swaps in the fallback audio
            var audioUrl: Option<string>;
            var spoken := tts(ChatCall(llmText));
            if spoken.HttpResponse? && spoken.status == 200 && spoken.audioFile.AudioFile? {
              audioUrl := spoken.audioFile.url;
            } else {
              audioUrl := Some(FallbackAudioUrl);
            }
            response := ChatReply(userText, llmText, audioUrl);
          }
        }
      }
      ChatStepAppendOnly(store0, sessionId, req);
      ChatStepKeepsWellFormed(store0, sessionId, req);
    }
  }

  predicate IsPrefix(a: seq<Turn>, b: seq<Turn>)
  {
    |a| <= |b| && b[..|a|] == a
  }

  /** No history loses or changes a turn from one store to the next. */
  ghost predicate AppendOnly(before: Store, after: Store)
  {
    forall k :: IsPrefix(History(before, k), History(after, k))
  }

  /** Reading the upload failed: the catch-all body, and no session is touched. */
  lemma UploadFailure(store: Store, sid: string, req: Request)
    requires req.upload.ReadError?
    ensures ChatStep(store, sid, req)
      == ChatOutcome(ChatFailure(req.upload.message, GenericFailure, Some(FallbackAudioUrl)), store)
  {
  }

  /**
   * The transcript stage failed (raised, missing or empty text): the fixed
   * "trouble hearing" body, the store unchanged and the session not created.
   */
  lemma TranscriptionFailure(store: Store, sid: string, req: Request)
    requires req.upload.ReadOk? && HeardText(req.stt(req.upload.audio)).None?
    ensures ChatStep(store, sid, req)
      == ChatOutcome(ChatReply("", HearingTrouble, Some(FallbackAudioUrl)), store)
    ensures sid !in store ==> sid !in ChatStep(store, sid, req).store
  {
  }

  /**
   * Once the user has been heard, the session exists and its history ends with
   * exactly one new user turn; every other session keeps its entry (or its absence).
   */
  lemma UserTurnRecorded(store: Store, sid: string, req: Request)
    requires req.upload.ReadOk? && HeardText(req.stt(req.upload.audio)).Some?
    ensures var after := ChatStep(store, sid, req).store;
      var n := |History(store, sid)|;
      && sid in after
      && |after[sid]| > n
      && after[sid][..n + 1] == History(store, sid) + [Turn(User, HeardText(req.stt(req.upload.audio)).value)]
      && (forall other :: other != sid ==> (other in after <==> other in store))
      && (forall other :: other != sid && other in store ==> after[other] == store[other])
  {
  }

  /**
   * The language model is asked one prompt only: the session's whole history,
   * the new user turn included. Any model that answers that prompt the same
   * way yields the same turn.
   */
  lemma ModelSeesFullHistory(store: Store, sid: string, req: Request, llm2: string -> Option<string>)
    requires req.upload.ReadOk? && HeardText(req.stt(req.upload.audio)).Some?
    requires var p := Prompt(History(store, sid) + [Turn(User, HeardText(req.stt(req.upload.audio)).value)]);
      llm2(p) == req.llm(p)
    ensures ChatStep(store, sid, req.(llm := llm2)) == ChatStep(store, sid, req)
  {
  }

  /**
   * The prompt is the previous prompt, a newline, and "User: " followed by
   * the words just heard; the first prompt of a session is that line alone.
   */
  lemma PromptEndsWithUserTurn(store: Store, sid: string, userText: string)
    ensures var p := Prompt(History(store, sid) + [Turn(User, userText)]);
      p == (if History(store, sid) == [] then "" else Prompt(History(store, sid)) + "\n") + "User: " + userText
  {
    PromptAppend(History(store, sid), Turn(User, userText));
    RenderTurnShape(Turn(User, userText));
  }

  /** The model failed: the fixed "trouble thinking" body with the real transcript; the user turn stays, no assistant turn. */
  lemma ModelFailure(store: Store, sid: string, req: Request, userText: string)
    requires req.upload.ReadOk? && HeardText(req.stt(req.upload.audio)) == Some(userText)
    requires req.llm(Prompt(History(store, sid) + [Turn(User, userText)])).None?
    ensures ChatStep(store, sid, req) == ChatOutcome(
      ChatReply(userText, ThinkingTrouble, Some(FallbackAudioUrl)),
      store[sid := History(store, sid) + [Turn(User, userText)]])
  {
  }

  /**
   * The model answered: both turns are recorded whatever the synthesiser does,
   * and the body carries the real transcript and reply. A synthesis failure
   * (transport error, non-200 status, undecodable body) only turns the audio
   * URL into the fallback.
   */
  lemma ModelAnswered(store: Store, sid: string, req: Request, userText: string, llmText: string)
    requires req.upload.ReadOk? && HeardText(req.stt(req.upload.audio)) == Some(userText)
    requires req.llm(Prompt(History(store, sid) + [Turn(User, userText)])) == Some(llmText)
    ensures var o := ChatStep(store, sid, req);
      && o.store == store[sid := History(store, sid) + [Turn(User, userText), Turn(Assistant, llmText)]]
      && o.response.ChatReply?
      && o.response.transcription == userText
      && o.response.llmResponse == llmText
    ensures var spoken := req.tts(ChatCall(llmText));
      var url := ChatStep(store, sid, req).response.audioUrl;
      && (spoken.HttpResponse? && spoken.status == 200 && spoken.audioFile.AudioFile? ==> url == spoken.audioFile.url)
      && (!(spoken.HttpResponse? && spoken.status == 200 && spoken.audioFile.AudioFile?) ==> url == Some(FallbackAudioUrl))
  {
    assert History(store, sid) + [Turn(User, userText)] + [Turn(Assistant, llmText)]
      == History(store, sid) + [Turn(User, userText), Turn(Assistant, llmText)];
  }

  /**
   * The synthesiser affects nothing but the audio URL: with any two
   * synthesisers the store is the same and so are the transcript and reply.
   */
  lemma SynthesisOnlyAffectsAudio(store: Store, sid: string, req: Request, tts2: TtsCall -> TtsOutcome)
    ensures var o1 := ChatStep(store, sid, req);
      var o2 := ChatStep(store, sid, req.(tts := tts2));
      && o1.store == o2.store
      && o1.response.ChatReply? == o2.response.ChatReply?
      && o1.response.llmResponse == o2.response.llmResponse
      && (o1.response.ChatReply? ==> o1.response.transcription == o2.response.transcription)
      && (o1.response.ChatFailure? ==> o1.response == o2.response)
  {
  }

  /**
   * The audio URL is null in exactly one case: every stage succeeded and the
   * synthesiser answered 200 with a decodable body lacking "audioFile".
   * Every other failure yields the fallback, so a chat body always has a
   * playable URL unless the provider omitted it.
   */
  lemma NullAudioOnlyWhenProviderOmitsIt(store: Store, sid: string, req: Request)
    ensures var o := ChatStep(store, sid, req);
      (o.response.ChatReply? && o.response.audioUrl.None?) <==>
      (&& req.upload.ReadOk?
       && HeardText(req.stt(req.upload.audio)).Some?
       && var withUser := History(store, sid) + [Turn(User, HeardText(req.stt(req.upload.audio)).value)];
          && req.llm(Prompt(withUser)).Some?
          && var spoken := req.tts(ChatCall(req.llm(Prompt(withUser)).value));
             spoken.HttpResponse? && spoken.status == 200 && spoken.audioFile == AudioFile(None))
  {
  }

  /** How many turns one call adds to its session. */
  function TurnsAdded(store: Store, sid: string, req: Request): (n: nat)
    ensures n <= 2
  {
    match req.upload
    case ReadError(_) => 0
    case ReadOk(audio) =>
      match HeardText(req.stt(audio))
      case None => 0
      case Some(userText) =>
        if req.llm(Prompt(History(store, sid) + [Turn(User, userText)])).None? then 1 else 2
  }

  /**
   * History is append-only: after one call every session's old history is a
   * prefix of its new one, the called session grows by TurnsAdded (0, 1 or 2)
   * and no other session changes. Only the called session can appear.
   */
  lemma ChatStepAppendOnly(store: Store, sid: string, req: Request)
    ensures var after := ChatStep(store, sid, req).store;
      && AppendOnly(store, after)
      && |History(after, sid)| == |History(store, sid)| + TurnsAdded(store, sid, req)
      && (forall k :: k != sid ==> History(after, k) == History(store, k))
      && after.Keys <= store.Keys + {sid}
      && store.Keys <= after.Keys
  {
  }

  /** One call keeps every history well formed: user turns are never empty and an assistant turn always answers a user turn. */
  lemma ChatStepKeepsWellFormed(store: Store, sid: string, req: Request)
    requires WellFormedStore(store)
    ensures WellFormedStore(ChatStep(store, sid, req).store)
  {
    if req.upload.ReadOk? && HeardText(req.stt(req.upload.audio)).Some? {
      var h := History(store, sid);
      assert WellFormed(h);
      var withUser := h + [Turn(User, HeardText(req.stt(req.upload.audio)).value)];
      assert WellFormed(withUser);
      var reply := req.llm(Prompt(withUser));
      if reply.Some? {
        var full := withUser + [Turn(Assistant, reply.value)];
        assert full[|withUser| - 1].role == User;
        assert WellFormed(full);
      }
    }
  }

  /** Calls handled one after another, in order, starting from a store. */
  function Run(store: Store, calls: seq<Call>): Store
    decreases |calls|
  {
    if calls == [] then store
    else Run(ChatStep(store, calls[0].sessionId, calls[0].request).store, calls[1..])
  }

  /** Any sequence of calls keeps every history well formed. */
  lemma {:induction false} RunKeepsWellFormed(store: Store, calls: seq<Call>)
    requires WellFormedStore(store)
    ensures WellFormedStore(Run(store, calls))
    decreases |calls|
  {
    if calls != [] {
      ChatStepKeepsWellFormed(store, calls[0].sessionId, calls[0].request);
      RunKeepsWellFormed(ChatStep(store, calls[0].sessionId, calls[0].request).store, calls[1..]);
    }
  }

  /** Over any sequence of calls no turn is ever edited or removed: every old history is a prefix of the final one. */
  lemma {:induction false} RunAppendOnly(store: Store, calls: seq<Call>, sid: string)
    ensures IsPrefix(History(store, sid), History(Run(store, calls), sid))
    decreases |calls|
  {
    if calls != [] {
      var next := ChatStep(store, calls[0].sessionId, calls[0].request).store;
      ChatStepAppendOnly(store, calls[0].sessionId, calls[0].request);
      RunAppendOnly(next, calls[1..], sid);
      var a, b, c := History(store, sid), History(next, sid), History(Run(next, calls[1..]), sid);
      assert c[..|a|] == c[..|b|][..|a|];
    }
  }

  /** A call whose upload is read and whose transcript is non-empty. */
  predicate Heard(req: Request)
  {
    req.upload.ReadOk? && HeardText(req.stt(req.upload.audio)).Some?
  }

  /** The transcript of a heard call. */
  function HeardOf(req: Request): string
    requires Heard(req)
  {
    HeardText(req.stt(req.upload.audio)).value
  }

  /** The prompt a heard call puts to the model on this store: the history plus the new user turn. */
  function AskedPrompt(store: Store, sid: string, req: Request): string
    requires Heard(req)
  {
    Prompt(History(store, sid) + [Turn(User, HeardOf(req))])
  }

  /** The call is heard and its model answers the one prompt it is asked on this store. */
  predicate ReachesModel(store: Store, sid: string, req: Request)
  {
    Heard(req) && req.llm(AskedPrompt(store, sid, req)).Some?
  }

  /** The model's answer to the prompt it is asked. */
  function ReplyOf(store: Store, sid: string, req: Request): string
    requires ReachesModel(store, sid, req)
  {
    req.llm(AskedPrompt(store, sid, req)).value
  }

  /** The same session called once per request, in order. */
  function CallsOn(sid: string, reqs: seq<Request>): (calls: seq<Call>)
    ensures |calls| == |reqs|
  {
    if reqs == [] then [] else [Call(sid, reqs[0])] + CallsOn(sid, reqs[1..])
  }

  /** The store in which the k-th of a series of calls on one session runs. */
  function StoreBefore(store: Store, sid: string, reqs: seq<Request>, k: nat): Store
    requires k <= |reqs|
  {
    Run(store, CallsOn(sid, reqs[..k]))
  }

  /** Every call of the series is heard and its model answers the prompt it is actually asked. */
  ghost predicate AllReachModel(store: Store, sid: string, reqs: seq<Request>)
  {
    forall k :: 0 <= k < |reqs| ==> ReachesModel(StoreBefore(store, sid, reqs, k), sid, reqs[k])
  }

  /**
   * Turn i recorded by such a series: for call i / 2, a user turn with the
   * call's transcript, then an assistant turn with the model's answer to the
   * prompt that call was asked.
   */
  ghost function AnsweredTurn(store: Store, sid: string, reqs: seq<Request>, i: nat): Turn
    requires AllReachModel(store, sid, reqs) && i < 2 * |reqs|
  {
    var k := i / 2;
    if i % 2 == 0 then Turn(User, HeardOf(reqs[k]))
    else Turn(Assistant, ReplyOf(StoreBefore(store, sid, reqs, k), sid, reqs[k]))
  }

  /** The turns recorded by such a series, two per call. */
  ghost predicate AnsweredPairs(turns: seq<Turn>, store: Store, sid: string, reqs: seq<Request>)
    requires AllReachModel(store, sid, reqs)
  {
    && |turns| == 2 * |reqs|
    && forall i :: 0 <= i < |turns| ==> turns[i] == AnsweredTurn(store, sid, reqs, i)
  }

  /** A model that answers every prompt answers the ones it is asked. */
  lemma AlwaysAnsweringModelsReach(store: Store, sid: string, reqs: seq<Request>)
    requires forall k :: 0 <= k < |reqs| ==> Heard(reqs[k]) && forall p :: reqs[k].llm(p).Some?
    ensures AllReachModel(store, sid, reqs)
  {
  }

  lemma StoreBeforeFirst(store: Store, sid: string, reqs: seq<Request>)
    ensures StoreBefore(store, sid, reqs, 0) == store
  {
    assert reqs[..0] == [];
  }

  /** The k-th store after the first call is the (k+1)-th store of the whole series. */
  lemma StoreBeforeShift(store: Store, sid: string, reqs: seq<Request>, k: nat)
    requires reqs != [] && k < |reqs|
    ensures StoreBefore(ChatStep(store, sid, reqs[0]).store, sid, reqs[1..], k) == StoreBefore(store, sid, reqs, k + 1)
  {
    RunOnSessionCons(store, sid, reqs[..k + 1]);
    assert reqs[..k + 1][1..] == reqs[1..][..k];
  }

  lemma AllReachModelTail(store: Store, sid: string, reqs: seq<Request>)
    requires reqs != [] && AllReachModel(store, sid, reqs)
    ensures ReachesModel(store, sid, reqs[0])
    ensures AllReachModel(ChatStep(store, sid, reqs[0]).store, sid, reqs[1..])
  {
    StoreBeforeFirst(store, sid, reqs);
    var next := ChatStep(store, sid, reqs[0]).store;
    forall k | 0 <= k < |reqs| - 1
      ensures ReachesModel(StoreBefore(next, sid, reqs[1..], k), sid, reqs[1..][k])
    {
      StoreBeforeShift(store, sid, reqs, k);
      assert reqs[1..][k] == reqs[k + 1];
    }
  }

  /** One call that reaches the model appends its user turn and the model's answer to its session. */
  lemma AnsweredStep(store: Store, sid: string, req: Request)
    requires ReachesModel(store, sid, req)
    ensures History(ChatStep(store, sid, req).store, sid)
      == History(store, sid) + [Turn(User, HeardOf(req)), Turn(Assistant, ReplyOf(store, sid, req))]
  {
    ModelAnswered(store, sid, req, HeardOf(req), ReplyOf(store, sid, req));
  }

  /** Turn i of a series is turn i - 2 of its tail, run on the store the first call leaves. */
  lemma AnsweredTurnShift(store: Store, sid: string, reqs: seq<Request>, i: nat)
    requires reqs != [] && AllReachModel(store, sid, reqs)
    requires AllReachModel(ChatStep(store, sid, reqs[0]).store, sid, reqs[1..])
    requires 2 <= i < 2 * |reqs|
    ensures AnsweredTurn(ChatStep(store, sid, reqs[0]).store, sid, reqs[1..], i - 2) == AnsweredTurn(store, sid, reqs, i)
  {
    var k := i / 2;
    assert (i - 2) / 2 == k - 1 && (i - 2) % 2 == i % 2;
    StoreBeforeShift(store, sid, reqs, k - 1);
    assert reqs[1..][k - 1] == reqs[k];
  }

  lemma ConsIndex(head: seq<Turn>, turns: seq<Turn>, i: nat)
    requires |head| == 2 <= i < 2 + |turns|
    ensures (head + turns)[i] == turns[i - 2]
  {
  }

  lemma AnsweredPairsCons(turns: seq<Turn>, store: Store, sid: string, reqs: seq<Request>)
    requires reqs != [] && AllReachModel(store, sid, reqs)
    requires AllReachModel(ChatStep(store, sid, reqs[0]).store, sid, reqs[1..])
    requires AnsweredPairs(turns, ChatStep(store, sid, reqs[0]).store, sid, reqs[1..])
    ensures ReachesModel(store, sid, reqs[0])
    ensures AnsweredPairs([Turn(User, HeardOf(reqs[0])), Turn(Assistant, ReplyOf(store, sid, reqs[0]))] + turns, store, sid, reqs)
  {
    StoreBeforeFirst(store, sid, reqs);
    var all := [Turn(User, HeardOf(reqs[0])), Turn(Assistant, ReplyOf(store, sid, reqs[0]))] + turns;
    forall i | 0 <= i < |all|
      ensures all[i] == AnsweredTurn(store, sid, reqs, i)
    {
      if i >= 2 {
        AnsweredTurnShift(store, sid, reqs, i);
        ConsIndex([Turn(User, HeardOf(reqs[0])), Turn(Assistant, ReplyOf(store, sid, reqs[0]))], turns, i);
      }
    }
  }

  /** Running calls on one session is the first call followed by the rest. */
  lemma RunOnSessionCons(store: Store, sid: string, reqs: seq<Request>)
    requires reqs != []
    ensures Run(store, CallsOn(sid, reqs)) == Run(ChatStep(store, sid, reqs[0]).store, CallsOn(sid, reqs[1..]))
  {
    assert CallsOn(sid, reqs)[1..] == CallsOn(sid, reqs[1..]);
  }

  /** Sequence bookkeeping for one induction step of RunAnsweredTurns. */
  lemma AnsweredPairsExtend(mid: seq<Turn>, after: seq<Turn>, store: Store, sid: string, reqs: seq<Request>)
    requires reqs != [] && AllReachModel(store, sid, reqs)
    requires AllReachModel(ChatStep(store, sid, reqs[0]).store, sid, reqs[1..])
    requires ReachesModel(store, sid, reqs[0])
    requires mid == History(store, sid) + [Turn(User, HeardOf(reqs[0])), Turn(Assistant, ReplyOf(store, sid, reqs[0]))]
    requires |after| == |mid| + 2 * (|reqs| - 1) && after[..|mid|] == mid
    requires AnsweredPairs(after[|mid|..], ChatStep(store, sid, reqs[0]).store, sid, reqs[1..])
    ensures |after| == |History(store, sid)| + 2 * |reqs|
    ensures after[..|History(store, sid)|] == History(store, sid)
    ensures AnsweredPairs(after[|History(store, sid)|..], store, sid, reqs)
  {
    var before := History(store, sid);
    assert after[..|before|] == after[..|mid|][..|before|];
    assert after[|before|..] == [Turn(User, HeardOf(reqs[0])), Turn(Assistant, ReplyOf(store, sid, reqs[0]))] + after[|mid|..];
    AnsweredPairsCons(after[|mid|..], store, sid, reqs);
  }

  /**
   * N calls on one session that each reach the model append 2N turns: per
   * call, in call order, a user turn with its transcript and an assistant
   * turn with the model's answer to the prompt it was asked. Identical calls
   * are not deduplicated, and the synthesiser plays no part.
   */
  lemma {:induction false} RunAnsweredTurns(store: Store, sid: string, reqs: seq<Request>)
    requires AllReachModel(store, sid, reqs)
    ensures var before := History(store, sid);
      var after := History(Run(store, CallsOn(sid, reqs)), sid);
      && |after| == |before| + 2 * |reqs|
      && after[..|before|] == before
      && AnsweredPairs(after[|before|..], store, sid, reqs)
    decreases |reqs|
  {
    var before := History(store, sid);
    if reqs == [] {
      assert History(Run(store, CallsOn(sid, reqs)), sid)[|before|..] == [];
    } else {
      var next := ChatStep(store, sid, reqs[0]).store;
      AllReachModelTail(store, sid, reqs);
      AnsweredStep(store, sid, reqs[0]);
      RunOnSessionCons(store, sid, reqs);
      RunAnsweredTurns(next, sid, reqs[1..]);
      AnsweredPairsExtend(History(next, sid), History(Run(next, CallsOn(sid, reqs[1..])), sid), store, sid, reqs);
    }
  }

  /** The turns of such a series alternate user, assistant. */
  lemma AnsweredPairsAlternate(turns: seq<Turn>, store: Store, sid: string, reqs: seq<Request>)
    requires AllReachModel(store, sid, reqs)
    requires AnsweredPairs(turns, store, sid, reqs)
    ensures forall i :: 0 <= i < |turns| ==> turns[i].role == (if i % 2 == 0 then User else Assistant)
  {
    forall i | 0 <= i < |turns|
      ensures turns[i].role == (if i % 2 == 0 then User else Assistant)
    {
      assert turns[i] == AnsweredTurn(store, sid, reqs, i);
    }
  }

  /** A fresh session after N calls that each reach the model holds exactly 2N turns, alternating user and assistant. */
  lemma FreshSessionAlternates(store: Store, sid: string, reqs: seq<Request>)
    requires sid !in store
    requires AllReachModel(store, sid, reqs)
    ensures var h := History(Run(store, CallsOn(sid, reqs)), sid);
      && |h| == 2 * |reqs|
      && (forall i :: 0 <= i < |h| ==> h[i].role == (if i % 2 == 0 then User else Assistant))
  {
    RunAnsweredTurns(store, sid, reqs);
    var h := History(Run(store, CallsOn(sid, reqs)), sid);
    assert h[0..] == h;
    AnsweredPairsAlternate(h, store, sid, reqs);
  }

  /** The end-to-end example: "Hello" in session "s1", the model says "Hi there!", the synthesiser returns a URL. */
  lemma HelloScenario()
    ensures var req := Request(
        ReadOk([]),
        a => Transcript(Some("Hello")),
        p => Some("Hi there!"),
        c => HttpResponse(200, "", AudioFile(Some("https://cdn/x.mp3"))));
      ChatStep(map[], "s1", req) == ChatOutcome(
        ChatReply("Hello", "Hi there!", Some("https://cdn/x.mp3")),
        map["s1" := [Turn(User, "Hello"), Turn(Assistant, "Hi there!")]])
  {
    assert History(map[], "s1") + [Turn(User, "Hello")] + [Turn(Assistant, "Hi there!")]
      == [Turn(User, "Hello"), Turn(Assistant, "Hi there!")];
  }
}
