/** Small result types shared by every module of the model. */
module Wrappers {

  /** A value that may be absent: Python's `None` versus a value. */
  datatype Option<+T> = None | Some(value: T)

  /** The outcome of a call into code outside the model (LlamaIndex, Gemini, Ollama,
      HuggingFace, Python built-ins): it either returns a value or raises an
      exception whose `str(e)` is `message`. */
  datatype Attempt<+T> = Returns(value: T) | Raises(message: string)
}
