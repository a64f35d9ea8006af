/** What a service finds around it when it starts: environment variables, the file
    system, and how each call into LlamaIndex and the model providers turns out. */
module RagHost {
  import opened Wrappers

  /** A document read from the data directory. */
  datatype Document = Document(text: string)

  /** A vector index, built from documents or loaded from storage; opaque here. */
  datatype Index = Index(id: nat)

  /** A query engine (`index.as_query_engine(...)`) and the index it answers from. */
  datatype Engine = Engine(index: Index)

  /** The outcome of every external step of start-up, fixed before it runs. */
  datatype Host = Host(
    apiKey: Option<string>,                  // os.getenv("GEMINI_API_KEY")
    port: Option<string>,                    // os.environ.get("PORT")
    embedSetup: Attempt<()>,                 // constructing the embedding model
    llmSetup: Attempt<()>,                   // constructing the language model client
    readDocuments: Attempt<seq<Document>>,   // SimpleDirectoryReader(...).load_data()
    buildIndex: Attempt<Index>,              // VectorStoreIndex.from_documents(documents)
    persistIndex: Attempt<()>,               // index.storage_context.persist(...)
    loadIndex: Attempt<Index>,               // load_index_from_storage(StorageContext...)
    makeEngine: Attempt<()>                  // index.as_query_engine(...)
  )

  /** `if not key` fails for an unset variable and for an empty one. */
  predicate KeyPresent(key: Option<string>)
    ensures KeyPresent(key) <==> key != None && key != Some("")
  {
    key.Some? && key.value != []
  }

  /** The paths that exist on the file system (`os.path.exists`). */
  class Disk {
    var paths: set<string>

    constructor (paths: set<string>)
      ensures this.paths == paths
    {
      this.paths := paths;
    }
  }
}
