# Mushroom-cultivation RAG chatbot: start-up and `/ask` decisions

The repository runs three Flask variants of one question-answering service over a
LlamaIndex retrieval pipeline:

- `core/geminichatbot.py`: local HuggingFace embeddings and Gemini answers. It loads a
  persisted index, or builds one from `../data` and persists it.
- `core/chatbot_rag.py`: local embeddings and a local Ollama model. It only loads an index
  that already exists in `../storage`.
- `core/geminichatbot_railway.py`: Gemini for both. It builds the index in memory from
  `data` at every start and reads the port from `PORT`.

This Dafny project models what each service decides:

- **Start-up.** It models whether start-up ends with a query engine (or index), what it
  assigns on the way, and what it writes to disk. It also models whether the HTTP server
  then listens.
- **The `/ask` handler.** It models the one status and payload the handler answers for
  each request, and whether the answer engine is called and with what.

Everything outside these decisions is a parameter. Environment variables, the file system
and the outcome of every LlamaIndex or model-provider call are fixed in advance in
`RagHost.Host` (and `RagHost.Disk`). What the engine would answer is the `outcome`
argument of each handler. The handler returns an `Http.Exchange`: the response, plus
`Some(q)` exactly when it passed `q` to the engine.

Layout:

- `wrappers.dfy`: `Option` and `Attempt`, a call that returns or raises.
- `py_text.dfy`: `str.isspace`, `str.strip`, and `int()` / `str()` on decimal numerals.
- `py_json.dfy`: the decoded JSON body and Python's truthiness, `in` and `[]` on it.
- `http.dfy`: the response types.
- `rag_host.dfy`: the start-up oracles and the disk.
- `guarded_ask.dfy`: the `ask_chatbot` chain shared by the first two variants.
- `gemini_chatbot.dfy`, `chatbot_rag.dfy` and `gemini_railway.dfy`: one module per source file. Each holds a `Service` class for the
  module-level globals (the engine or index, the `Settings` models, the listening port),
  its `Initialize` and `Start` methods, and its handler.

What the code does, where one might expect otherwise:

- No variant checks an `X-API-Key` shared secret, so there is no 401 path.
- The engine receives the question as sent, not trimmed. Trimming is used only for the
  blank test.
- `geminichatbot_railway.py` puts the exception text in its 500 response, has no
  readiness check and no blank-question check.
- In the first two variants, some bodies raise outside the `try`, and Flask then answers
  500 with its own error page (`Http.Unhandled`), not 400:
  - a truthy number or boolean body, where `"question" in data` raises `TypeError`;
  - a list or string body that contains `"question"`, where `data["question"]` raises;
  - a dict body whose `"question"` is not a string, where `.strip()` raises.
- In `geminichatbot_railway.py` only the truthy number or boolean body escapes.
  - A list or string body that contains `"question"` is caught and answered 500 with
    the exception text.
  - A dict whose `"question"` is not a string reaches `query_engine.query()` unchanged,
    and the engine's outcome decides the response.

## Model

| member | source | states |
|---|---|---|
| PyText.Strip | core/geminichatbot.py:164 | `strip()` is empty exactly when every character is whitespace; a non-empty result neither starts nor ends with whitespace |
| PyText.StripSlices | core/geminichatbot.py:164 | what `strip()` keeps is one slice of the input, and everything before and after it is whitespace |
| PyText.ParseInt | core/geminichatbot_railway.py:86 | `int()` of a blank string raises `ValueError`, and so does `int()` of any string holding one of U+001C..U+001F, which `int()` does not skip as whitespace |
| PyText.ParseShowInt | core/geminichatbot_railway.py:86 | `int(str(n)) == n` for every integer `n` |
| PyJson.Truthy | core/geminichatbot.py:154 | `not data` holds exactly for `None`, `False`, `0`, `""`, `[]` and `{}` |
| RagHost.KeyPresent | core/geminichatbot.py:58 | `not GEMINI_API_KEY` fails exactly when the variable is unset or empty |
| PyJson.Contains | core/geminichatbot.py:154 | `"question" in data` raises exactly on `None`, booleans and numbers; on a dict it is key membership |
| PyJson.Subscript | core/geminichatbot.py:161 | `data["question"]` returns only for a dict holding the key, and then returns that key's value |
| GuardedAsk.Handle | core/geminichatbot.py:143-182 | 503 whatever the body when there is no engine; 400 "JSON inválido…" when the body is missing, falsy or lacks `question`; 400 "Pergunta não pode ser vazia" for a whitespace-only question; the engine is called iff ready with a non-blank string question, and gets it untrimmed; 200 `{"answer": …}` iff the engine returns; a failing query gives 500 with the fixed message; Flask's 500 page iff the body passes `not data` and `"question" in data` does not return False, yet is not a dict holding a string `question` (a truthy number or boolean, a list or string containing "question", or a non-string `question`) |
| GuardedAsk.NullBodyIsNoBody | core/geminichatbot.py:153-159 | a JSON `null` body is answered exactly as no body |
| GuardedAsk.OutcomeUnusedUnlessQueried | core/geminichatbot.py:146-170 | when the engine is not called, what it would have answered does not change the response |
| GuardedAsk.ErrorTextHidden | core/geminichatbot.py:175-182 | the exception's text never changes the response |
| GeminiChatbot.PersistedIndexIsReused | core/geminichatbot.py:78-107 | after a start-up that persisted the index, every later start-up, whatever its own environment, loads it and never builds or writes again |
| GeminiChatbot.Service.constructor | core/geminichatbot.py:48-49 | `query_engine` starts as `None`, nothing is configured, no server is listening |
| GeminiChatbot.Service.Initialize | core/geminichatbot.py:51-139 | returns `True` iff the key is set, both models configure, the index loads (if persisted) or is built from a non-empty existing data dir and persisted, and the engine is created; the engine is assigned only then, over the chosen index, and is otherwise left as it was; `Settings` keep the models assigned before a failure; the disk gains `PersistDir` only in the build branch |
| GeminiChatbot.Service.Start | core/geminichatbot.py:186-196 | `app.run(port=5001)` is reached, and the server listens, iff start-up returned `True`; the engine, the `Settings` models and the disk end as `Initialize` leaves them: the engine over the chosen index on success and unchanged otherwise, the disk gaining `PersistDir` only in the build branch |
| GeminiChatbot.Service.Ask | core/geminichatbot.py:143-182 | reads `query_engine` only; 503 without an engine; a failing query gives 500 "Erro interno ao processar a pergunta com o assistente externo"; a listening service never answers 503 |
| ChatbotRag.Service.constructor | core/chatbot_rag.py:35-36 | `query_engine` starts as `None`, nothing is configured, no server is listening |
| ChatbotRag.Service.Initialize | core/chatbot_rag.py:39-120 | no key check; returns `True` iff both models configure, the persisted index exists and loads, and the engine is created; a missing index means `False` and is never built; the disk is not modified; the engine is assigned only on success |
| ChatbotRag.Service.Start | core/chatbot_rag.py:167-179 | `app.run(port=5001)` is reached, and the server listens, iff start-up returned `True`; the engine is over the loaded index on success and unchanged otherwise; the `Settings` models end as `Initialize` leaves them |
| ChatbotRag.Service.Ask | core/chatbot_rag.py:124-163 | reads `query_engine` only; 503 without an engine; a failing query gives 500 "Erro interno ao processar a pergunta"; a listening service never answers 503 |
| GeminiRailway.PortSetting | core/geminichatbot_railway.py:86 | port 5001 when `PORT` is unset; a blank `PORT` makes `int()` raise |
| GeminiRailway.PortSettingReadsBack | core/geminichatbot_railway.py:86 | any integer written in decimal in `PORT` is read back as that integer |
| GeminiRailway.AskEndpoint | core/geminichatbot_railway.py:69-82 | 400 "Requisição inválida" iff the body is missing, falsy or lacks `question`; Flask's 500 page iff the body is a truthy number or boolean; the engine is called iff the index exists and the body is a dict with `question`, and gets that value as sent, blank or not; 200 iff the engine returns; a failing query gives 500 with the exception's text; without an index, 500 with the `NameError` text; a list or string body holding `question` gives 500 with the `TypeError` text of `request.json['question']` |
| GeminiRailway.NullBodyIsNoBody | core/geminichatbot_railway.py:71-82 | a JSON `null` body is answered exactly as no body: 400 "Requisição inválida" |
| GeminiRailway.BlankQuestionReachesEngine | core/geminichatbot_railway.py:71-78 | a whitespace-only question is passed to the engine unchanged |
| GeminiRailway.ErrorTextExposed | core/geminichatbot_railway.py:80-81 | two failures with different texts give different responses |
| GeminiRailway.Service.constructor | core/geminichatbot_railway.py:74 | no `index` yet, nothing configured, no server is listening |
| GeminiRailway.Service.Initialize | core/geminichatbot_railway.py:19-50 | returns `True` iff the key is set, both models configure, and documents are read and indexed (an empty list is accepted); the index is assigned only then, and is otherwise left as it was; nothing is loaded or persisted |
| GeminiRailway.Service.Start | core/geminichatbot_railway.py:84-90 | the port is read only after start-up returned `True`; the server listens iff start-up returned `True`, `int()` accepts the port and it lies in 0..65535, on `PORT` or 5001; the index is the built one on success and unchanged otherwise; the `Settings` models end as `Initialize` leaves them |
| GeminiRailway.Service.Ask | core/geminichatbot_railway.py:69-82 | reads `index` only; the engine is called only with an index; on a listening service every dict body with `question` reaches the engine |

## Left out

- The `X-API-Key` shared-secret check: no source file implements it.
- LlamaIndex, HuggingFace, Gemini and Ollama internals (index build, load, persist, the
  query itself). They appear only as outcomes that return or raise.
- `torch.cuda.is_available()` and the device choice: they do not affect any decision.
- The prompt template texts: constant data with no behaviour.
- Logging, `load_dotenv`, and the 180-second Ollama timeout.
- Flask routing and JSON decoding. The body is modelled as already decoded (`None` when
  `get_json()` yields none). How Flask answers a malformed body or a non-JSON content type
  from inside `get_json()` is not modelled. In the first two variants that call comes
  after the readiness test, so an engine-less service still answers 503.
- JSON numbers are integers only: floats are not modelled, so neither is the falsiness of `0.0`.
- PyText.ParseInt: does not accept the non-ASCII decimal digits that Python's `int()` also
  accepts.
- A persist step that raises is modelled as writing nothing, though it may leave part of
  the directory behind.
- GeminiRailway.Service.Start: `app.run` is assumed to bind whenever the port lies in
  0..65535. A port in use, or one the process may not bind, also makes it raise, and port
  0 lets the system pick a port; neither is modelled.
- GeminiChatbot.Service.Start: `app.run` is assumed to bind port 5001. If the port is in
  use or may not be bound, the process ends without listening although start-up returned
  `True`; that failure is not modelled.
- ChatbotRag.Service.Start: `app.run` is assumed to bind port 5001, as above.
- PyText.ParseShowInt: ignores CPython's 4300-digit limit on `int()` and `str()` of
  integers.
- Concurrent requests: after start-up the engine is only read, so each request is
  modelled on its own.
- `core/torch_cuda.py` (a GPU diagnostic script) and `test_api.py` (an HTTP client with a
  retry loop) are not part of this model.
