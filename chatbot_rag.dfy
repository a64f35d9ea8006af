/** `core/chatbot_rag.py`: a local embedding model, a local Ollama model, and an index that
    must already be persisted; this service never builds one and needs no API key. */
module ChatbotRag {
  import opened Wrappers
  import opened PyJson
  import opened Http
  import opened RagHost
  import GuardedAsk

  const LlmModelName := "llama3.2:3b"
  const EmbeddingModelName := "intfloat/multilingual-e5-large"
  const PersistDir := "../storage"
  const Port := 5001
  const InternalErrorMessage := "Erro interno ao processar a pergunta"

  /** Start-up ends with a query engine: both models are configured, the persisted index
      exists and loads, and the engine is created over it. */
  predicate Succeeds(host: Host, paths: set<string>) {
    && host.embedSetup.Returns? && host.llmSetup.Returns?
    && PersistDir in paths && host.loadIndex.Returns?
    && host.makeEngine.Returns?
  }

  /** The process: the global `query_engine`, the two `Settings` fields start-up assigns
      and the port Flask listens on, if any. */
  class Service {
    var engine: Option<Engine>
    var embedModel: Option<string>
    var llm: Option<string>
    var listening: Option<nat>

    /** A server only listens once there is an engine to answer with. */
    ghost predicate Valid()
      reads this
    {
      listening.Some? ==> engine.Some?
    }

    /** The state at import time: `query_engine = None`, nothing configured. */
    constructor ()
      ensures Valid()
      ensures engine == None && embedModel == None && llm == None && listening == None
    {
      engine, embedModel, llm, listening := None, None, None, None;
    }

    /** `initialize_rag_pipeline()`. There is no key check; a missing persisted index ends
        it with `False` (it is neither built nor persisted: the disk is only read); any
        external step that raises ends it with `False`; `query_engine` is assigned only
        as its last step. */
    method Initialize(host: Host, disk: Disk) returns (ok: bool)
      requires Valid()
      modifies this
      ensures ok <==> Succeeds(host, disk.paths)
      ensures engine == if ok then Some(Engine(host.loadIndex.value)) else old(engine)
      ensures embedModel == if host.embedSetup.Returns? then Some(EmbeddingModelName) else old(embedModel)
      ensures llm == if host.embedSetup.Returns? && host.llmSetup.Returns?
                     then Some(LlmModelName) else old(llm)
      ensures listening == old(listening)
      ensures Valid()
    {
      if host.embedSetup.Raises? {
        return false;
      }
      embedModel := Some(EmbeddingModelName);
      if host.llmSetup.Raises? {
        return false;
      }
      llm := Some(LlmModelName);
      if PersistDir !in disk.paths {
        return false;
      }
      if host.loadIndex.Raises? {
        return false;
      }
      var index := host.loadIndex.value;
      if host.makeEngine.Raises? {
        return false;
      }
      engine := Some(Engine(index));
      return true;
    }

    /** The `__main__` block: the server starts, on port 5001, only when start-up
        returned `True`. */
    method Start(host: Host, disk: Disk) returns (started: bool)
      requires Valid()
      modifies this
      ensures Valid()
      ensures started <==> Succeeds(host, disk.paths)
      ensures listening == if started then Some(Port) else old(listening)
      ensures engine == if started then Some(Engine(host.loadIndex.value)) else old(engine)
      ensures embedModel == if host.embedSetup.Returns? then Some(EmbeddingModelName) else old(embedModel)
      ensures llm == if host.embedSetup.Returns? && host.llmSetup.Returns?
                     then Some(LlmModelName) else old(llm)
    {
      started := Initialize(host, disk);
      if started {
        listening := Some(Port);
      }
    }

    /** `ask_chatbot()` against the current `query_engine`, which it only reads. */
    function Ask(body: Option<Json>, outcome: Attempt<string>): (x: Exchange)
      reads this
      ensures engine.None? ==> x == GuardedAsk.NotReady
      ensures x.query.Some? ==> engine.Some?
      ensures x.query.Some? && outcome.Raises? ==>
                x.response == Response(500, Error(InternalErrorMessage))
      // a listening server has an engine, so it never reports that it is not ready
      ensures Valid() && listening.Some? ==> x.response.status != 503
    {
      GuardedAsk.Handle(engine, body, outcome, InternalErrorMessage)
    }
  }
}
