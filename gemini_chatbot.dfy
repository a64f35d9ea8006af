/** `core/geminichatbot.py`: a local embedding model, Gemini as the language model, and
    an index that is loaded from storage or, failing that, built from the data directory
    and persisted. */
module GeminiChatbot {
  import opened Wrappers
  import opened PyJson
  import opened Http
  import opened RagHost
  import GuardedAsk

  const GeminiModelName := "models/gemini-1.5-flash-latest"
  const EmbeddingModelName := "intfloat/multilingual-e5-large"
  const DataDir := "../data"
  const PersistDir := "../storage_gemini_llm"
  const Port := 5001
  const InternalErrorMessage := "Erro interno ao processar a pergunta com o assistente externo"

  /** Start-up builds a fresh index (there is no persisted one yet) and has written it
      to `PersistDir`. */
  predicate WritesIndex(host: Host, paths: set<string>) {
    && KeyPresent(host.apiKey) && host.embedSetup.Returns? && host.llmSetup.Returns?
    && PersistDir !in paths && DataDir in paths
    && host.readDocuments.Returns? && host.readDocuments.value != []
    && host.buildIndex.Returns? && host.persistIndex.Returns?
  }

  /** Start-up ends with a query engine: the key is set, both models are configured, the
      index is loaded (when persisted) or built and persisted (from a non-empty data
      directory), and the engine is created over it. */
  predicate Succeeds(host: Host, paths: set<string>) {
    && KeyPresent(host.apiKey) && host.embedSetup.Returns? && host.llmSetup.Returns?
    && (if PersistDir in paths then host.loadIndex.Returns? else WritesIndex(host, paths))
    && host.makeEngine.Returns?
  }

  /** The index a successful start-up answers from. */
  function ChosenIndex(host: Host, paths: set<string>): Index
    requires Succeeds(host, paths)
  {
    if PersistDir in paths then host.loadIndex.value else host.buildIndex.value
  }

  /** Once a start-up has written the index, every later start-up (whatever its own
      environment and external calls, `later`) finds it and loads it: it never builds or
      writes again, and it succeeds iff the key is set, the models configure, the index
      loads and the engine is created. */
  lemma PersistedIndexIsReused(host: Host, paths: set<string>, later: Host)
    requires WritesIndex(host, paths)
    ensures !WritesIndex(later, paths + {PersistDir})
    ensures Succeeds(later, paths + {PersistDir}) <==>
              KeyPresent(later.apiKey) && later.embedSetup.Returns? && later.llmSetup.Returns?
              && later.loadIndex.Returns? && later.makeEngine.Returns?
  {
  }

  /** The process: the global `query_engine`, the two `Settings` fields start-up assigns
      (the names of the configured models) and the port Flask listens on, if any. */
  class Service {
    var engine: Option<Engine>
    var embedModel: Option<string>
    var llm: Option<string>
    var listening: Option<nat>

    /** A server only listens once there is an engine to answer with. */
    ghost predicate Valid()
      reads this
    {
      listening.Some? ==> engine.Some?
    }

    /** The state at import time: `query_engine = None`, nothing configured. */
    constructor ()
      ensures Valid()
      ensures engine == None && embedModel == None && llm == None && listening == None
    {
      engine, embedModel, llm, listening := None, None, None, None;
    }

    /** `initialize_rag_pipeline()`. Each external step that raises ends it with `False`
        (the `except Exception` around the whole body); `query_engine` is assigned only
        as its last step, so it stays as it was on every failure. The models assigned to
        `Settings` before a failure stay assigned. The disk is written only when there is
        no persisted index and one was built. */
    method Initialize(host: Host, disk: Disk) returns (ok: bool)
      requires Valid()
      modifies this, disk
      ensures ok <==> Succeeds(host, old(disk.paths))
      ensures engine == if ok then Some(Engine(ChosenIndex(host, old(disk.paths)))) else old(engine)
      ensures embedModel == if KeyPresent(host.apiKey) && host.embedSetup.Returns?
                            then Some(EmbeddingModelName) else old(embedModel)
      ensures llm == if KeyPresent(host.apiKey) && host.embedSetup.Returns? && host.llmSetup.Returns?
                     then Some(GeminiModelName) else old(llm)
      ensures disk.paths == if WritesIndex(host, old(disk.paths))
                            then old(disk.paths) + {PersistDir} else old(disk.paths)
      ensures disk.paths != old(disk.paths) ==> PersistDir !in old(disk.paths)
      ensures listening == old(listening)
      ensures Valid()
    {
      if !KeyPresent(host.apiKey) {
        return false;
      }
      if host.embedSetup.Raises? {
        return false;
      }
      embedModel := Some(EmbeddingModelName);
      if host.llmSetup.Raises? {
        return false;
      }
      llm := Some(GeminiModelName);
      var index: Index;
      if PersistDir !in disk.paths {
        if DataDir !in disk.paths {
          return false;
        }
        if host.readDocuments.Raises? {
          return false;
        }
        var documents := host.readDocuments.value;
        if documents == [] {
          return false;
        }
        if host.buildIndex.Raises? {
          return false;
        }
        index := host.buildIndex.value;
        if host.persistIndex.Raises? {
          return false;
        }
        disk.paths := disk.paths + {PersistDir};
      } else {
        if host.loadIndex.Raises? {
          return false;
        }
        index := host.loadIndex.value;
      }
      if host.makeEngine.Raises? {
        return false;
      }
      engine := Some(Engine(index));
      return true;
    }

    /** The `__main__` block: the server starts, on port 5001, only when start-up
        returned `True`. */
    method Start(host: Host, disk: Disk) returns (started: bool)
      requires Valid()
      modifies this, disk
      ensures Valid()
      ensures started <==> Succeeds(host, old(disk.paths))
      ensures listening == if started then Some(Port) else old(listening)
      ensures engine == if started then Some(Engine(ChosenIndex(host, old(disk.paths)))) else old(engine)
      ensures embedModel == if KeyPresent(host.apiKey) && host.embedSetup.Returns?
                            then Some(EmbeddingModelName) else old(embedModel)
      ensures llm == if KeyPresent(host.apiKey) && host.embedSetup.Returns? && host.llmSetup.Returns?
                     then Some(GeminiModelName) else old(llm)
      ensures disk.paths == if WritesIndex(host, old(disk.paths))
                            then old(disk.paths) + {PersistDir} else old(disk.paths)
    {
      started := Initialize(host, disk);
      if started {
        listening := Some(Port);
      }
    }

    /** `ask_chatbot()` against the current `query_engine`, which it only reads. */
    function Ask(body: Option<Json>, outcome: Attempt<string>): (x: Exchange)
      reads this
      ensures engine.None? ==> x == GuardedAsk.NotReady
      ensures x.query.Some? ==> engine.Some?
      ensures x.query.Some? && outcome.Raises? ==>
                x.response == Response(500, Error(InternalErrorMessage))
      // a listening server has an engine, so it never reports that it is not ready
      ensures Valid() && listening.Some? ==> x.response.status != 503
    {
      GuardedAsk.Handle(engine, body, outcome, InternalErrorMessage)
    }
  }
}
