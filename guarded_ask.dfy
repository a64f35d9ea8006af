/** The `/ask` decision chain that `core/geminichatbot.py` and `core/chatbot_rag.py` share:
    readiness, then the body, then the blank-question test, then the engine. The two
    differ only in the message of the 500 response. */
module GuardedAsk {
  import opened Wrappers
  import opened PyText
  import opened PyJson
  import opened Http
  import opened RagHost

  const NotReadyMessage := "Serviço de chatbot não está pronto"
  const InvalidBodyMessage := "JSON inválido ou chave 'question' ausente"
  const EmptyQuestionMessage := "Pergunta não pode ser vazia"

  const NotReady := Exchange(Response(503, Error(NotReadyMessage)), None)
  const InvalidBody := Exchange(Response(400, Error(InvalidBodyMessage)), None)
  const EmptyQuestion := Exchange(Response(400, Error(EmptyQuestionMessage)), None)

  /** The question of a body that is a JSON object whose "question" is a string. */
  function QuestionText(body: Option<Json>): Option<string> {
    if body.Some? && body.value.JObj? && "question" in body.value.fields
       && body.value.fields["question"].JStr?
    then Some(body.value.fields["question"].s)
    else None
  }

  /** `ask_chatbot` with `engine` the value of the global `query_engine` and `outcome`
      what `str(query_engine.query(user_query))` would give. */
  function Handle(engine: Option<Engine>, body: Option<Json>, outcome: Attempt<string>,
                  internalError: string): (x: Exchange)
    // readiness comes first: an engine-less service answers 503 whatever the body
    ensures engine.None? ==> x == NotReady
    ensures engine.Some? && LacksKey(body, "question") ==> x == InvalidBody
    ensures engine.Some? && QuestionText(body).Some? && AllSpace(QuestionText(body).value) ==>
              x == EmptyQuestion
    // the engine is called only when ready, with a string question that is not blank,
    // and it gets that question as sent, not trimmed
    ensures x.query.Some? <==> engine.Some? && QuestionText(body).Some?
                               && !AllSpace(QuestionText(body).value)
    ensures x.query.Some? ==> x.query.value == JStr(QuestionText(body).value)
    ensures x.response.status == 200 <==> x.query.Some? && outcome.Returns?
    ensures x.response.status == 200 ==> x.response.payload == Answer(outcome.value)
    // a failing query gets the fixed message, never the exception's text
    ensures x.query.Some? && outcome.Raises? ==> x.response == Response(500, Error(internalError))
    // a body with "question" that is not a dict holding a string escapes the view
    ensures x == Unhandled <==> engine.Some? && !LacksKey(body, "question")
                                && QuestionText(body).None?
  {
    if engine.None? then NotReady
    else if body.None? || !Truthy(body.value) then InvalidBody
    else match Contains(body.value, "question")
      case Raises(_) => Unhandled
      case Returns(found) =>
        if !found then InvalidBody
        else match Subscript(body.value, "question")
          case Raises(_) => Unhandled
          case Returns(question) =>
            // `question.strip()` raises AttributeError on anything but a str
            if !question.JStr? then Unhandled
            else if Strip(question.s) == [] then EmptyQuestion
            else match outcome
              case Returns(answer) => Exchange(Response(200, Answer(answer)), Some(question))
              case Raises(_) => Exchange(Response(500, Error(internalError)), Some(question))
  }

  /** When the engine is not called, what it would have answered makes no difference. */
  lemma OutcomeUnusedUnlessQueried(engine: Option<Engine>, body: Option<Json>,
                                   o1: Attempt<string>, o2: Attempt<string>, internalError: string)
    requires Handle(engine, body, o1, internalError).query.None?
    ensures Handle(engine, body, o1, internalError) == Handle(engine, body, o2, internalError)
  {
  }

  /** JSON `null` decodes to Python `None`: a `null` body is the same case as no body. */
  lemma NullBodyIsNoBody(engine: Option<Engine>, outcome: Attempt<string>, internalError: string)
    ensures Handle(engine, Some(JNull), outcome, internalError)
            == Handle(engine, None, outcome, internalError)
  {
  }

  /** The text of the engine's exception never reaches the client. */
  lemma ErrorTextHidden(engine: Option<Engine>, body: Option<Json>, e1: string, e2: string,
                        internalError: string)
    ensures Handle(engine, body, Raises(e1), internalError)
            == Handle(engine, body, Raises(e2), internalError)
  {
  }
}
