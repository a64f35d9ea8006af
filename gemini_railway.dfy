/** `core/geminichatbot_railway.py`: Gemini for both embeddings and answers, an index built
    in memory from `data` at every start, and a handler with no readiness or blank-question
    check that reports the exception text on failure. */
module GeminiRailway {
  import opened Wrappers
  import opened PyText
  import opened PyJson
  import opened Http
  import opened RagHost

  const EmbeddingModelName := "models/embedding-001"
  const GeminiModelName := "models/gemini-1.5-flash"
  const DefaultPort := 5001
  /** The largest TCP port; `app.run` raises `OverflowError` at the bind for any port
      outside 0..MaxPort. */
  const MaxPort := 65535
  const InvalidRequestMessage := "Requisição inválida"
  /** `str(e)` of the `NameError` raised when the global `index` was never assigned. */
  const IndexUndefinedMessage := "name 'index' is not defined"

  const InvalidRequest := Exchange(Response(400, Error(InvalidRequestMessage)), None)

  /** Start-up ends with an index: the key is set, both models are configured, and the
      documents are read and indexed. An empty document list is not rejected. */
  predicate Succeeds(host: Host) {
    && KeyPresent(host.apiKey) && host.embedSetup.Returns? && host.llmSetup.Returns?
    && host.readDocuments.Returns? && host.buildIndex.Returns?
  }

  /** `int(os.environ.get("PORT", 5001))`: the default when `PORT` is unset, otherwise the
      variable read as a decimal integer; `None` when `int()` raises `ValueError`. */
  function PortSetting(env: Option<string>): (p: Option<int>)
    ensures env.None? ==> p == Some(DefaultPort)
    ensures env.Some? && AllSpace(env.value) ==> p.None?
  {
    if env.None? then Some(DefaultPort) else ParseInt(env.value)
  }

  /** A port is one the socket layer can bind to. */
  predicate InPortRange(p: int) {
    0 <= p <= MaxPort
  }

  /** Any integer written in decimal in `PORT` is read back as that integer, so any port
      in range written there is the port the server uses. */
  lemma PortSettingReadsBack(n: int)
    ensures PortSetting(Some(ShowInt(n))) == Some(n)
  {
    ParseShowInt(n);
  }

  /** `ask_endpoint()` with `index` the global `index` (absent when start-up never assigned
      it) and `outcome` what building the query engine and `str(query_engine.query(query))`
      would give. */
  function AskEndpoint(index: Option<Index>, body: Option<Json>, outcome: Attempt<string>): (x: Exchange)
    ensures x == InvalidRequest <==> LacksKey(body, "question")
    // `"question" in body` raises outside the `try` on a truthy number or boolean
    ensures x == Unhandled <==> body.Some? && (body.value.JNum? || body.value.JBool?) && Truthy(body.value)
    // no readiness and no blank check: any value under "question", as sent, reaches the
    // query path once the index exists
    ensures x.query.Some? <==> index.Some? && body.Some? && body.value.JObj?
                               && "question" in body.value.fields
    ensures x.query.Some? ==> x.query.value == body.value.fields["question"]
    ensures x.response.status == 200 <==> x.query.Some? && outcome.Returns?
    ensures x.response.status == 200 ==> x.response.payload == Answer(outcome.value)
    // a failing query reports the exception's own text
    ensures x.query.Some? && outcome.Raises? ==> x.response == Response(500, Error(outcome.message))
    ensures index.None? && body.Some? && body.value.JObj? && "question" in body.value.fields ==>
              x.response == Response(500, Error(IndexUndefinedMessage))
    // `request.json['question']` on a list or a string raises `TypeError`, caught alike
    ensures !LacksKey(body, "question") && (body.value.JArr? || body.value.JStr?) ==>
              x.query.None? &&
              x.response == Response(500, Error(Subscript(body.value, "question").message))
  {
    if body.None? || !Truthy(body.value) then InvalidRequest
    else match Contains(body.value, "question")
      case Raises(_) => Unhandled
      case Returns(found) =>
        if !found then InvalidRequest
        else match Subscript(body.value, "question")
          case Raises(e) => Exchange(Response(500, Error(e)), None)
          case Returns(question) =>
            if index.None? then Exchange(Response(500, Error(IndexUndefinedMessage)), None)
            else match outcome
              case Returns(answer) => Exchange(Response(200, Answer(answer)), Some(question))
              case Raises(e) => Exchange(Response(500, Error(e)), Some(question))
  }

  /** JSON `null` decodes to Python `None`: a `null` body is the same case as no body. */
  lemma NullBodyIsNoBody(index: Option<Index>, outcome: Attempt<string>)
    ensures AskEndpoint(index, Some(JNull), outcome) == AskEndpoint(index, None, outcome)
            == InvalidRequest
  {
  }

  /** A whitespace-only question is handed to the engine unchanged. */
  lemma BlankQuestionReachesEngine(index: Index, question: string, outcome: Attempt<string>)
    requires AllSpace(question)
    ensures AskEndpoint(Some(index), Some(JObj(map["question" := JStr(question)])), outcome).query
            == Some(JStr(question))
  {
  }

  /** Two failures with different texts give two different responses. */
  lemma ErrorTextExposed(index: Index, question: string, e1: string, e2: string)
    requires e1 != e2
    ensures var body := Some(JObj(map["question" := JStr(question)]));
            AskEndpoint(Some(index), body, Raises(e1)) != AskEndpoint(Some(index), body, Raises(e2))
  {
  }

  /** The process: the global `index`, the two `Settings` fields start-up assigns and the
      port Flask listens on, if any. */
  class Service {
    var index: Option<Index>
    var embedModel: Option<string>
    var llm: Option<string>
    var listening: Option<int>

    /** A server only listens once the index exists. */
    ghost predicate Valid()
      reads this
    {
      listening.Some? ==> index.Some?
    }

    /** The state at import time: no `index` yet, nothing configured. */
    constructor ()
      ensures Valid()
      ensures index == None && embedModel == None && llm == None && listening == None
    {
      index, embedModel, llm, listening := None, None, None, None;
    }

    /** `initialize_services()`. A missing key raises `ValueError`, caught like every other
        exception, so it ends with `False`; the index is always built in memory from
        `data` (nothing is loaded or persisted) and assigned just before `True`. */
    method Initialize(host: Host) returns (ok: bool)
      requires Valid()
      modifies this
      ensures ok <==> Succeeds(host)
      ensures index == if ok then Some(host.buildIndex.value) else old(index)
      ensures embedModel == if KeyPresent(host.apiKey) && host.embedSetup.Returns?
                            then Some(EmbeddingModelName) else old(embedModel)
      ensures llm == if KeyPresent(host.apiKey) && host.embedSetup.Returns? && host.llmSetup.Returns?
                     then Some(GeminiModelName) else old(llm)
      ensures listening == old(listening)
      ensures Valid()
    {
      if !KeyPresent(host.apiKey) {
        return false;
      }
      if host.embedSetup.Raises? {
        return false;
      }
      embedModel := Some(EmbeddingModelName);
      if host.llmSetup.Raises? {
        return false;
      }
      llm := Some(GeminiModelName);
      if host.readDocuments.Raises? {
        return false;
      }
      if host.buildIndex.Raises? {
        return false;
      }
      index := Some(host.buildIndex.value);
      return true;
    }

    /** The `__main__` block: only after start-up returned `True` is the port read, and
        the server listens on it; a `PORT` that `int()` rejects, or a port outside
        0..65535 that `app.run` cannot bind, raises and ends the process before it
        listens. */
    method Start(host: Host) returns (initialized: bool, started: bool)
      requires Valid()
      modifies this
      ensures Valid()
      ensures initialized <==> Succeeds(host)
      ensures started <==> initialized && PortSetting(host.port).Some?
                           && InPortRange(PortSetting(host.port).value)
      ensures listening == if started then PortSetting(host.port) else old(listening)
      ensures index == if initialized then Some(host.buildIndex.value) else old(index)
      ensures embedModel == if KeyPresent(host.apiKey) && host.embedSetup.Returns?
                            then Some(EmbeddingModelName) else old(embedModel)
      ensures llm == if KeyPresent(host.apiKey) && host.embedSetup.Returns? && host.llmSetup.Returns?
                     then Some(GeminiModelName) else old(llm)
    {
      initialized := Initialize(host);
      started := false;
      if initialized {
        var port := PortSetting(host.port);
        if port.Some? && InPortRange(port.value) {
          listening := port;
          started := true;
        }
      }
    }

    /** `ask_endpoint()` against the current global `index`, which it only reads. */
    function Ask(body: Option<Json>, outcome: Attempt<string>): (x: Exchange)
      reads this
      ensures x.query.Some? ==> index.Some?
      // a listening server has its index: every dict with "question" reaches the engine
      ensures Valid() && listening.Some? ==>
                (x.query.Some? <==> body.Some? && body.value.JObj? && "question" in body.value.fields)
    {
      AskEndpoint(index, body, outcome)
    }
  }
}
