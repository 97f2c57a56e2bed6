/**
 * The decision pipeline of the `/message` endpoint (app.py, `handle_message`):
 * identity lock, hard safety gate, prompt assembly, one call to the language
 * model, and the post-processing of its answer.
 */
module Webhook {
  import opened Wrappers
  import opened Text
  import opened Safety

  // ---------------------------------------------------------------------------
  // Configuration
  // ---------------------------------------------------------------------------

  /** The single Instagram user the bot answers. */
  const ALLOWED_INSTAGRAM_USER_ID: string := "17842154490654283"

  /** The persona instructions sent as the first message of every conversation. */
  const SYSTEM_PROMPT: string :=
    "\nYou are impersonating the user exactly.\n\nRules:\n" +
    "- Write like the user: short, direct, Hinglish + English.\n" +
    "- Casual tone. Blunt when needed.\n" +
    "- Friendly, teasing, honest.\n" +
    "- Abuse allowed if playful, never threatening.\n" +
    "- Do NOT over-explain.\n" +
    "- Act as a best friend by default.\n\n" +
    "CRITICAL SAFETY RULE:\n" +
    "If the other person expresses self-harm or suicidal intent,\n" +
    "you MUST output exactly this token and nothing else:\n" +
    "[[NO_REPLY_REQUIRED]]\n"

  /** The answer by which the model asks for no reply to be sent. */
  const NO_REPLY_TOKEN: string := "[[NO_REPLY_REQUIRED]]"

  const LLM_FAILURE: string := "LLM request failed"

  // ---------------------------------------------------------------------------
  // Data
  // ---------------------------------------------------------------------------

  /** One `{"role": ..., "content": ...}` entry of the chat-completion message list. */
  datatype ChatMessage = ChatMessage(role: string, content: string)

  /**
   * The fields of the JSON body the endpoint reads; `None` is a field that is
   * absent (for `sender_id` also JSON null or any non-string value, none of
   * which can equal the configured id).
   */
  datatype Request = Request(
    senderId: Option<string>,
    message: Option<string>,
    recentChat: Option<seq<ChatMessage>>)

  /** Why no reply is sent: the `reason` field of the response. */
  datatype Reason = UnauthorizedSender | SelfHarmBlocked | LlmSafetyOverride {
    /** The string the response carries in its `reason` field. */
    function Code(): string {
      match this
      case UnauthorizedSender => "UNAUTHORIZED_SENDER"
      case SelfHarmBlocked => "SELF_HARM_BLOCKED"
      case LlmSafetyOverride => "LLM_SAFETY_OVERRIDE"
    }
  }

  /** The three reason codes are distinct, so a caller can tell the cases apart. */
  lemma ReasonCodesDistinct(a: Reason, b: Reason)
    requires a.Code() == b.Code()
    ensures a == b
  {
  }

  /** The JSON body returned to the caller. */
  datatype Body =
    | Reply(text: string)       // {"reply": text}
    | NoReply(reason: Reason)   // {"reply": null, "reason": reason}
    | Error(error: string)      // {"error": error}

  datatype Response = Response(body: Body, status: int)

  /** What the model's HTTP endpoint answered: its status and the first choice's content. */
  datatype LlmResult = LlmResult(status: int, content: string)

  /** The language model, seen from the webhook: a message list in, an answer out. */
  type Llm = seq<ChatMessage> -> LlmResult

  /** The response, and the message list sent to the model (`None`: no call was made). */
  datatype Outcome = Outcome(response: Response, llmRequest: Option<seq<ChatMessage>>)

  // ---------------------------------------------------------------------------
  // Prompt assembly
  // ---------------------------------------------------------------------------

  function SystemTurn(): ChatMessage { ChatMessage("system", SYSTEM_PROMPT) }

  function UserTurn(message: string): ChatMessage { ChatMessage("user", message) }

  /**
   * The message list sent to the model: the persona prompt, the prior chat as
   * given, then the new user message.
   */
  function Conversation(message: string, recentChat: seq<ChatMessage>): (c: seq<ChatMessage>)
    ensures |c| == |recentChat| + 2
    ensures c[0] == SystemTurn()
    ensures c[1..|c| - 1] == recentChat
    ensures forall i :: 0 <= i < |recentChat| ==> c[i + 1] == recentChat[i]
    ensures c[|c| - 1] == UserTurn(message)
  {
    [SystemTurn()] + recentChat + [UserTurn(message)]
  }

  /** Builds the list the way the endpoint does: a one-element literal, `extend`, then `append`. */
  method BuildMessages(message: string, recentChat: seq<ChatMessage>) returns (messages: seq<ChatMessage>)
    ensures messages == Conversation(message, recentChat)
  {
    messages := [SystemTurn()];
    messages := messages + recentChat;
    messages := messages + [UserTurn(message)];
  }

  // ---------------------------------------------------------------------------
  // The two gates
  // ---------------------------------------------------------------------------

  /** The identity lock: exact match; a missing id never matches. */
  predicate Authorized(senderId: Option<string>) {
    senderId == Some(ALLOWED_INSTAGRAM_USER_ID)
  }

  datatype GateResult = Rejected(reason: Reason) | Proceed(messages: seq<ChatMessage>)

  /** The identity lock, then the safety gate; only a request through both yields a prompt. */
  function Gate(senderId: Option<string>, message: string, recentChat: seq<ChatMessage>): (g: GateResult)
    ensures !Authorized(senderId) <==> g == Rejected(UnauthorizedSender)
    ensures g == Rejected(SelfHarmBlocked) <==> Authorized(senderId) && ContainsSelfHarm(message)
    ensures g.Proceed? <==> Authorized(senderId) && !ContainsSelfHarm(message)
    ensures g.Proceed? ==> g.messages == Conversation(message, recentChat)
    ensures g != Rejected(LlmSafetyOverride)
  {
    if !Authorized(senderId) then
      Rejected(UnauthorizedSender)
    else if ContainsSelfHarm(message) then
      Rejected(SelfHarmBlocked)
    else
      Proceed(Conversation(message, recentChat))
  }

  // ---------------------------------------------------------------------------
  // Post-processing of the model's answer
  // ---------------------------------------------------------------------------

  /**
   * A non-200 status is a failure (500); otherwise the stripped content is the
   * reply, unless it is exactly the no-reply token.
   */
  function Post(status: int, content: string): (r: Response)
    ensures status != 200 <==> r == Response(Error(LLM_FAILURE), 500)
    ensures r.body.NoReply? ==> r == Response(NoReply(LlmSafetyOverride), 200)
    ensures r.body.Reply? ==> status == 200 && r.status == 200
    ensures r.body.Reply? ==> Trimmed(r.body.text) && r.body.text != NO_REPLY_TOKEN
    ensures r.body.Reply? ==> exists i :: OccursAt(r.body.text, content, i)
    ensures status == 200 ==> (r.body.NoReply? <==> Strip(content) == NO_REPLY_TOKEN)
    ensures status == 200 && Strip(content) != NO_REPLY_TOKEN ==> r == Response(Reply(Strip(content)), 200)
  {
    if status != 200 then
      Response(Error(LLM_FAILURE), 500)
    else
      var reply := Strip(content);
      if reply == NO_REPLY_TOKEN then
        Response(NoReply(LlmSafetyOverride), 200)
      else
        StripSplits(content);
        var pre, post :| AllSpace(pre) && AllSpace(post) && content == pre + reply + post;
        assert content[|pre|..|pre| + |reply|] == reply;
        assert OccursAt(reply, content, |pre|);
        Response(Reply(reply), 200)
  }

  // ---------------------------------------------------------------------------
  // The endpoint
  // ---------------------------------------------------------------------------

  /** The endpoint as a function of the request and of the model: the specification of HandleMessage. */
  function Handle(req: Request, llm: Llm): Outcome {
    var message := req.message.GetOr("");
    var recentChat := req.recentChat.GetOr([]);
    match Gate(req.senderId, message, recentChat)
    case Rejected(reason) => Outcome(Response(NoReply(reason), 200), None)
    case Proceed(messages) =>
      var answer := llm(messages);
      Outcome(Post(answer.status, answer.content), Some(messages))
  }

  /** `handle_message`: early returns for the two gates, then build the prompt, call the model once and post-process. */
  method HandleMessage(req: Request, llm: Llm) returns (outcome: Outcome)
    ensures outcome == Handle(req, llm)
  {
    var senderId := req.senderId;
    var message := req.message.GetOr("");
    var recentChat := req.recentChat.GetOr([]);

    if senderId != Some(ALLOWED_INSTAGRAM_USER_ID) {
      return Outcome(Response(NoReply(UnauthorizedSender), 200), None);
    }

    if ContainsSelfHarm(message) {
      return Outcome(Response(NoReply(SelfHarmBlocked), 200), None);
    }

    var messages := BuildMessages(message, recentChat);
    var answer := llm(messages);

    if answer.status != 200 {
      return Outcome(Response(Error(LLM_FAILURE), 500), Some(messages));
    }

    var reply := Strip(answer.content);
    if reply == NO_REPLY_TOKEN {
      return Outcome(Response(NoReply(LlmSafetyOverride), 200), Some(messages));
    }
    return Outcome(Response(Reply(reply), 200), Some(messages));
  }

  // ---------------------------------------------------------------------------
  // Properties of the endpoint
  // ---------------------------------------------------------------------------

  /**
   * Any sender other than the allowed one, a missing one included, gets
   * `UNAUTHORIZED_SENDER` with status 200 whatever the message and chat: the
   * safety gate is not consulted and the model is not called.
   */
  lemma UnauthorizedNeverReachesModel(req: Request, llm: Llm)
    requires !Authorized(req.senderId)
    ensures Handle(req, llm) == Outcome(Response(NoReply(UnauthorizedSender), 200), None)
    ensures Handle(req, llm).response.body != NoReply(SelfHarmBlocked)
  {
  }

  /** An allowed sender whose message is flagged gets `SELF_HARM_BLOCKED`, and the model is not called. */
  lemma SelfHarmNeverReachesModel(req: Request, llm: Llm)
    requires Authorized(req.senderId)
    requires ContainsSelfHarm(req.message.GetOr(""))
    ensures Handle(req, llm) == Outcome(Response(NoReply(SelfHarmBlocked), 200), None)
  {
  }

  /**
   * The model is called exactly when both gates pass, and then with the
   * assembled conversation and nothing else.
   */
  lemma ModelCalledIffGatesPass(req: Request, llm: Llm)
    ensures Handle(req, llm).llmRequest.Some?
        <==> Authorized(req.senderId) && !ContainsSelfHarm(req.message.GetOr(""))
    ensures Handle(req, llm).llmRequest.Some? ==>
      Handle(req, llm).llmRequest.value == Conversation(req.message.GetOr(""), req.recentChat.GetOr([]))
  {
  }

  /** When the model is not called, the outcome cannot depend on the model. */
  lemma RejectionIndependentOfModel(req: Request, llm1: Llm, llm2: Llm)
    requires Handle(req, llm1).llmRequest.None?
    ensures Handle(req, llm1) == Handle(req, llm2)
  {
  }

  /** The model influences the outcome only through its answer to the one conversation it is sent. */
  lemma ModelSeenOnlyThroughConversation(req: Request, llm1: Llm, llm2: Llm)
    requires llm1(Conversation(req.message.GetOr(""), req.recentChat.GetOr([])))
          == llm2(Conversation(req.message.GetOr(""), req.recentChat.GetOr([])))
    ensures Handle(req, llm1) == Handle(req, llm2)
  {
  }

  /**
   * Status 500 arises only from a failed model call; every gated or normal
   * outcome carries status 200.
   */
  lemma StatusCodes(req: Request, llm: Llm)
    ensures Handle(req, llm).response.status in {200, 500}
    ensures Handle(req, llm).response.status == 500 <==>
      Handle(req, llm).llmRequest.Some? && llm(Handle(req, llm).llmRequest.value).status != 200
    ensures Handle(req, llm).response.status == 500 ==> Handle(req, llm).response.body == Error(LLM_FAILURE)
  {
  }

  /**
   * A reply is sent only to the allowed sender, for an unflagged message, after
   * a successful model call, and it is the model's content stripped.
   */
  lemma ReplyComesFromModel(req: Request, llm: Llm)
    requires Handle(req, llm).response.body.Reply?
    ensures Authorized(req.senderId) && !ContainsSelfHarm(req.message.GetOr(""))
    ensures var answer := llm(Conversation(req.message.GetOr(""), req.recentChat.GetOr([])));
      answer.status == 200 &&
      Handle(req, llm).response.body.text == Strip(answer.content) != NO_REPLY_TOKEN
  {
  }

  /**
   * Conversely, an allowed sender with an unflagged message whose model call
   * succeeds gets the model's content, stripped, as the reply, unless it is
   * the no-reply token.
   */
  lemma ModelAnswerRelayed(req: Request, llm: Llm)
    requires Authorized(req.senderId) && !ContainsSelfHarm(req.message.GetOr(""))
    requires llm(Conversation(req.message.GetOr(""), req.recentChat.GetOr([]))).status == 200
    requires Strip(llm(Conversation(req.message.GetOr(""), req.recentChat.GetOr([]))).content) != NO_REPLY_TOKEN
    ensures var answer := llm(Conversation(req.message.GetOr(""), req.recentChat.GetOr([])));
      Handle(req, llm).response == Response(Reply(Strip(answer.content)), 200)
  {
  }

  /**
   * An allowed sender who sends no `message` and no `recent_chat` still reaches
   * the model, with just the persona prompt and an empty user turn.
   */
  lemma MissingFieldsDefault(senderId: Option<string>, llm: Llm)
    requires Authorized(senderId)
    ensures Handle(Request(senderId, None, None), llm).llmRequest == Some([SystemTurn(), UserTurn("")])
  {
    EmptyNotFlagged();
    assert [SystemTurn()] + [] + [UserTurn("")] == [SystemTurn(), UserTurn("")];
  }

  // ---------------------------------------------------------------------------
  // Properties of the post-processing
  // ---------------------------------------------------------------------------

  /** A non-200 status from the model is always the generic failure, whatever the content. */
  lemma FailedCallIsError(status: int, content: string)
    requires status != 200
    ensures Post(status, content) == Response(Error(LLM_FAILURE), 500)
  {
  }

  /**
   * The model's answer suppresses the reply exactly when it is the token with
   * nothing but whitespace around it.
   */
  lemma SuppressedIffPaddedToken(content: string)
    ensures Post(200, content) == Response(NoReply(LlmSafetyOverride), 200)
        <==> exists pre, post :: AllSpace(pre) && AllSpace(post) && content == pre + NO_REPLY_TOKEN + post
  {
    assert Trimmed(NO_REPLY_TOKEN);
    StripIsTokenIff(content, NO_REPLY_TOKEN);
  }

  /** The token padded with whitespace, as a model typically emits it, is suppressed. */
  lemma PaddedTokenSuppressed()
    ensures Post(200, "\n  [[NO_REPLY_REQUIRED]] \n").body == NoReply(LlmSafetyOverride)
  {
    var pre, post := "\n  ", " \n";
    assert Trimmed(NO_REPLY_TOKEN);
    assert "\n  [[NO_REPLY_REQUIRED]] \n" == pre + NO_REPLY_TOKEN + post;
    StripPadded(pre, NO_REPLY_TOKEN, post);
  }

  /** A reply that merely contains the token is passed through, token and all. */
  lemma EmbeddedTokenPassedThrough()
    ensures Post(200, "ok [[NO_REPLY_REQUIRED]]\n") == Response(Reply("ok [[NO_REPLY_REQUIRED]]"), 200)
  {
    var t := "ok [[NO_REPLY_REQUIRED]]";
    assert Trimmed(t);
    assert "ok [[NO_REPLY_REQUIRED]]\n" == [] + t + "\n";
    StripPadded([], t, "\n");
  }

  /** Post-processing a reply that was already post-processed changes nothing. */
  lemma ReplyStable(content: string)
    requires Strip(content) != NO_REPLY_TOKEN
    ensures Post(200, content).body.Reply?
    ensures Post(200, Post(200, content).body.text) == Post(200, content)
  {
    StripIdempotent(content);
  }

  /** The persona prompt names the very token the post-processor checks for. */
  lemma PromptCarriesToken()
    ensures Occurs(NO_REPLY_TOKEN, SYSTEM_PROMPT)
  {
    var i := |SYSTEM_PROMPT| - |NO_REPLY_TOKEN| - 1;
    assert SYSTEM_PROMPT[i..i + |NO_REPLY_TOKEN|] == NO_REPLY_TOKEN;
    assert OccursAt(NO_REPLY_TOKEN, SYSTEM_PROMPT, i);
  }
}
