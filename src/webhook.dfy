/**
 * The drone webhook (go/s0404/main.go): `webhookHandler`'s chain of early
 * returns and `prepareResponse`'s wrapping of the model's answer.
 *
 * JSON decoding of the body is a parameter `decode` (the `instruction` field
 * of a well-formed body, "" when absent, or `None` for malformed JSON); the
 * model is a parameter from messages to reply; the system prompt is a
 * parameter. Headers other than the status are not modelled.
 */
module Webhook {
  import opened Wrappers
  import opened Strings
  import opened Chat
  import opened GoJson

  datatype Request = Request(verb: GoString, body: GoString)

  /** What the client receives, or the whole server exiting before it answers. */
  datatype Outcome = Respond(status: int, body: GoString) | ProcessExits

  const StatusOK: int := 200
  const StatusBadRequest: int := 400
  const StatusMethodNotAllowed: int := 405
  const StatusInternalServerError: int := 500

  /** `http.Error` writes the message followed by a newline. */
  function ErrorBody(message: GoString): GoString {
    message + "\n"
  }

  /** The guard string: a body containing it is acknowledged and not processed. */
  const Guard: GoString := "{{"
  const ModelErrorMessage: GoString := "somthing went wrong while calling external source"

  /** The messages of `prepareResponse`: the system prompt, then the instruction. */
  function ModelRequest(systemPrompt: GoString, instruction: GoString): seq<ChatMessage> {
    [ChatMessage(System, systemPrompt), ChatMessage(User, instruction)]
  }

  /** `json.NewEncoder(w).Encode(&Response{Description: text})`. */
  function DescriptionJson(text: GoString): (body: GoString)
    ensures exists e :: body == "{\"description\":\"" + e + "\"}\n" && Unescape(e) == Some(text)
  {
    UnescapeEscape(text);
    "{\"description\":" + Quote(text) + "}\n"
  }

  /**
   * The handler with a model error answered by a 500, as `webhookHandler`
   * intends: method check, then the guard, then JSON, then the model.
   */
  function Handle(req: Request, decode: GoString -> Option<GoString>, model: seq<ChatMessage> -> ModelReply,
                  systemPrompt: GoString): (out: Outcome)
    ensures out.Respond?
    ensures req.verb != "POST" ==> out == Respond(StatusMethodNotAllowed, ErrorBody("Method not allowed"))
    ensures req.verb == "POST" && Contains(req.body, Guard) ==> out == Respond(StatusOK, "thanks")
    ensures req.verb == "POST" && !Contains(req.body, Guard) && decode(req.body).None? ==>
              out == Respond(StatusBadRequest, ErrorBody("Invalid JSON"))
    ensures req.verb == "POST" && !Contains(req.body, Guard) && decode(req.body).Some? ==>
              var reply := model(ModelRequest(systemPrompt, decode(req.body).value));
              (reply.ModelFailed? ==> out == Respond(StatusInternalServerError, ErrorBody(ModelErrorMessage))) &&
              (reply.Replied? ==> out == Respond(StatusOK, DescriptionJson(reply.text)))
  {
    if req.verb != "POST" then Respond(StatusMethodNotAllowed, ErrorBody("Method not allowed"))
    else if Contains(req.body, Guard) then Respond(StatusOK, "thanks")
    else match decode(req.body)
      case None => Respond(StatusBadRequest, ErrorBody("Invalid JSON"))
      case Some(instruction) =>
        match model(ModelRequest(systemPrompt, instruction))
        case ModelFailed => Respond(StatusInternalServerError, ErrorBody(ModelErrorMessage))
        case Replied(text) => Respond(StatusOK, DescriptionJson(text))
  }

  /**
   * The handler as written: `callModel` calls `log.Fatalf` on a model error,
   * which exits the process before `prepareResponse` can return the error,
   * so the 500 branch is never reached.
   */
  function HandleAsWritten(req: Request, decode: GoString -> Option<GoString>, model: seq<ChatMessage> -> ModelReply,
                           systemPrompt: GoString): (out: Outcome)
    ensures out.ProcessExits? <==>
              req.verb == "POST" && !Contains(req.body, Guard) && decode(req.body).Some? &&
              model(ModelRequest(systemPrompt, decode(req.body).value)).ModelFailed?
    ensures out.Respond? ==> out == Handle(req, decode, model, systemPrompt) && out.status != StatusInternalServerError
  {
    if req.verb == "POST" && !Contains(req.body, Guard) && decode(req.body).Some? &&
       model(ModelRequest(systemPrompt, decode(req.body).value)).ModelFailed?
    then ProcessExits
    else Handle(req, decode, model, systemPrompt)
  }

  /** The method check comes first: a non-POST request is refused whatever its body. */
  lemma MethodCheckFirst(verb: GoString, body1: GoString, body2: GoString,
                         decode: GoString -> Option<GoString>, model: seq<ChatMessage> -> ModelReply, systemPrompt: GoString)
    requires verb != "POST"
    ensures Handle(Request(verb, body1), decode, model, systemPrompt) ==
            Handle(Request(verb, body2), decode, model, systemPrompt)
  {
  }

  /**
   * The guard comes before JSON validation and the model: a body containing
   * "{{" is acknowledged even when it is not JSON and even when the model
   * would fail, and nothing is asked of the model.
   */
  lemma GuardBeforeJson(body: GoString, decode: GoString -> Option<GoString>,
                        model1: seq<ChatMessage> -> ModelReply, model2: seq<ChatMessage> -> ModelReply,
                        systemPrompt: GoString)
    requires Contains(body, Guard)
    ensures Handle(Request("POST", body), decode, model1, systemPrompt) == Respond(StatusOK, "thanks")
    ensures HandleAsWritten(Request("POST", body), decode, model2, systemPrompt) == Respond(StatusOK, "thanks")
  {
  }

  /** A well-formed request answered by the model gets the answer back, intact, in the JSON body. */
  lemma DescriptionRoundTrip(text: GoString)
    ensures HasPrefix(DescriptionJson(text), "{\"description\":\"")
    ensures HasSuffix(DescriptionJson(text), "\"}\n")
    ensures var body := DescriptionJson(text);
      Unescape(body[|"{\"description\":\""|..|body| - |"\"}\n"|]) == Some(text)
  {
    var body := DescriptionJson(text);
    var e :| body == "{\"description\":\"" + e + "\"}\n" && Unescape(e) == Some(text);
    var head, tail := "{\"description\":\"", "\"}\n";
    assert body == head + e + tail;
    assert body[..|head|] == head;
    assert body[|head|..|body| - |tail|] == e;
    assert body[|body| - |tail|..] == tail;
  }

  /** An object body: an opening brace, then no other one, so no "{{". */
  lemma SingleBraceLacksGuard(rest: GoString)
    requires '{' !in rest
    ensures !Contains("{" + rest, Guard)
  {
    var body := "{" + rest;
    forall i ensures !OccursAt(body, Guard, i) {
      if 0 <= i && i + 2 <= |body| {
        assert body[i + 1] == rest[i];
      }
    }
    ContainsIff(body, Guard);
  }

  /** A well-formed body without the guard. */
  const SampleBody: GoString := "{" + "\"instruction\":\"lecimy\"}"

  /**
   * The input that shows the dead branch: a valid JSON body without the
   * guard, and a model call that fails. The intended handler answers 500;
   * the one as written exits.
   */
  lemma ModelErrorExits()
    ensures Handle(Request("POST", SampleBody), _ => Some("lecimy"), _ => ModelFailed, "") ==
            Respond(StatusInternalServerError, ErrorBody(ModelErrorMessage))
    ensures HandleAsWritten(Request("POST", SampleBody), _ => Some("lecimy"), _ => ModelFailed, "") == ProcessExits
  {
    SingleBraceLacksGuard("\"instruction\":\"lecimy\"}");
  }
}
