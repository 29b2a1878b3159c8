# Streamed chat completion and retrieval-chat bookkeeping, in Dafny

This project models two pieces of the AI starter kit.

1. `run_inference` in `fast_api.py`. It posts a chat-completion request and
   reads the server-sent-event stream that comes back. Each non-empty line
   is split on `data: ` and the second part is JSON-decoded. The text in
   `choices[0].delta.content` is appended to the answer and printed.
   A 401, 503 or 504 status restarts the request. Any other error status
   returns `""`.
2. The session bookkeeping of the document-retrieval chat page
   (`enterprise_knowledge_retriever/streamlit/app.py`). It covers the chat
   and sources histories, the numbered list of source files shown under
   each answer, the session defaults, the reset button, and the
   `input_disabled` flag that keeps the question box closed until a vector
   store exists.

Files:

- `wrappers.dfy` (module `Wrappers`): an `Option` type.
- `text.dfy` (module `Text`): joining fragments, and the decimal numeral an
  f-string gives an integer.
- `inference.dfy` (module `Inference`): the payload, the split of a line,
  the effect of one line, and the fold of a stream into an outcome. It has
  the stream loop as a method proved against that fold, and the status
  decision and retry loop.
- `retriever.dfy` (module `Retriever`): the sources text; the zip that pairs
  questions, answers and sources; and a `Session` class whose fields are
  `st.session_state`, with one method per handler.

The transport is an input. Each attempt is a status code plus the decoded
response lines. `json.loads` is an input too: a function `parse` from the
text after the marker to a `Chunk`. A chunk is `Malformed` when decoding
fails. Otherwise it is `Parsed` with optional `choices`, `delta` and
`content`. In `app.py`, the chain's answer, the filenames of its source
documents, the credentials and the result of `os.path.exists` are inputs.
Button presses are method calls.

Points where the code behaves differently than one might expect:

- Nothing rejects an empty `messages` list. It is sent as it is.
- Not every malformed line is skipped. Only lines whose field fails JSON
  decoding are skipped. A non-empty line with no `data: ` marker raises
  `IndexError` out of `run_inference`.
- `split` cuts at every occurrence of the marker anywhere in the line, not
  only at a prefix. The field is the text between the first marker and the
  next one.

## Model

| member | source | states |
|---|---|---|
| Inference.BuildPayload | fast_api.py:26-32 | defines the request body: the caller's messages, the stop list holding the single end-of-turn token, the model, streaming on and usage reporting on; its fields are stated by `RunInference` |
| Inference.MarkerAtIsMarker | fast_api.py:48 | the character-wise test for a marker at `i` holds exactly when the six characters from `i` are `data: ` |
| Inference.FindMarker | fast_api.py:48 | the result is the first index at or after `from` where `data: ` starts; `None` only when no later index holds the marker |
| Inference.DataFieldSpec | fast_api.py:48 | `split("data: ")[1]` fails exactly when the line has no marker; otherwise the field follows the first marker, runs to the next marker or the end of the line, and contains no marker itself |
| Inference.DataFieldOfFrame | fast_api.py:48 | a frame `data: <payload>` whose payload holds no marker yields exactly that payload |
| Inference.DataField | fast_api.py:48 | defines `line.split("data: ")[1]`: `None` for the `IndexError` of a line without a marker, otherwise the text from the first marker to the next one or the end; its meaning is stated by `DataFieldSpec` |
| Inference.NoMarkerWithoutDa | fast_api.py:48 | a text in which no `d` is followed by an `a` contains no marker |
| Inference.ChunkText | fast_api.py:49-55 | a chunk contributes non-empty text exactly when it decoded, has a non-empty `choices`, and its first choice has a `delta` with non-empty `content`; the text is then that content |
| Inference.Effect | fast_api.py:46-59 | defines what one line does: an empty line is skipped, a line without a marker raises, and a data line appends its chunk's non-empty content or is skipped; its cases are stated by `EffectCases` |
| Inference.EffectCases | fast_api.py:46-59 | a line raises exactly when it is non-empty and has no marker; it appends a non-empty fragment equal to its chunk's content; it is skipped exactly when it is empty or its chunk has no content |
| Inference.ReadLine | fast_api.py:46-59 | the loop body for one line computes exactly the effect of that line |
| Inference.ReadNext | fast_api.py:45-59 | the loop body applied to line `i` computes entry `i` of the effects of all lines |
| Inference.Fold | fast_api.py:44-61 | defines the stream loop's result on a run of effects: `IndexError` when some effect fails, otherwise the appended fragments joined in order; its laws are `FoldAppend`, `SkipIsNeutral`, `FailDecides`, `FoldStops` and `FoldCompletes` |
| Inference.FoldCompletes | fast_api.py:44-61 | without a failure the loop runs to the end and returns every fragment joined |
| Inference.StreamOutcome | fast_api.py:44-61 | defines the stream's outcome as the fold of the effects of its lines; `StreamResponse` computes it |
| Inference.Printed | fast_api.py:56-57 | defines what the loop prints: the fragments of the lines before the first failing line |
| Inference.PrintedUpTo | fast_api.py:56-57 | when the first failure is at line `i`, the printed fragments are those of the first `i` lines |
| Inference.FoldAppend | fast_api.py:44-61 | folding two runs of effects gives the first outcome combined with the second: an exception in the first wins, otherwise the texts concatenate |
| Inference.SkipIsNeutral | fast_api.py:58-59 | a skipped effect can be removed from anywhere without changing the outcome |
| Inference.FailDecides | fast_api.py:48-63 | one failing effect makes the outcome `IndexError`, whatever surrounds it |
| Inference.FoldStops | fast_api.py:44-61 | the first failing effect is where the loop stops, and the outcome is the exception |
| Inference.StreamOutcomeAppend | fast_api.py:44-61 | the outcome of a stream split in two is the combination of the outcomes of the parts |
| Inference.SkippedLineIsNeutral | fast_api.py:46-59 | a line that contributes nothing can be removed from any position in the stream |
| Inference.EmptyLineIgnored | fast_api.py:46 | an empty line neither contributes text nor raises, wherever it is |
| Inference.MalformedLineSkipped | fast_api.py:48-59 | a line whose field does not decode is skipped and reading goes on with the next line |
| Inference.DoneTrailerHarmless | fast_api.py:48-59 | appending the `data: [DONE]` trailer leaves the outcome unchanged, given that `[DONE]` does not decode |
| Inference.ContentlessChunkSkipped | fast_api.py:49-55 | a chunk with no `choices`, empty `choices`, no `delta` or no or empty `content` leaves the outcome unchanged |
| Inference.UnmarkedLineRaises | fast_api.py:47-63 | a non-empty line without a marker makes the call end in `IndexError`, whatever precedes or follows it |
| Inference.FrameEffect | fast_api.py:48-57 | a frame `data: <payload>` appends its chunk's content, or is skipped when there is none |
| Inference.ContentFrameEffect | fast_api.py:48-57 | a frame whose JSON text has no `d` followed by `a` and decodes to content `t` appends `t` |
| Inference.HelFrameEffect | fast_api.py:48-57 | the frame `data: {"choices":[{"delta":{"content":"Hel"}}]}` appends `Hel` when it decodes to that chunk |
| Inference.LoFrameEffect | fast_api.py:48-57 | the frame of `lo` appends `lo` when it decodes to that chunk |
| Inference.DoneFrameEffect | fast_api.py:48-59 | the trailer `data: [DONE]` is skipped when `[DONE]` does not decode |
| Inference.ContentLineAppends | fast_api.py:48-57 | a frame carrying content `t` appends exactly `t` to the outcome so far |
| Inference.StreamResponse | fast_api.py:44-61 | the loop's outcome is the fold of the effects of all lines; what it printed is the fragments before the first failure; when it returns, the printed fragments joined equal the returned text |
| Inference.HelloStream | fast_api.py:44-61 | the stream of the two real event frames for `Hel` and `lo`, a keep-alive line and `data: [DONE]`, decoded by any `parse` that reads those frames as their chunks and rejects `[DONE]`, assembles to `Hello` |
| Inference.Classify | fast_api.py:42-74 | an attempt proceeds to the stream exactly when the status is below 400 or at least 600; it is retried exactly on 401, 503 and 504 |
| Inference.Inference | fast_api.py:63-74 | there is no result only when every attempt was transient, and then every attempt was sent; otherwise at least one and at most all attempts were sent |
| Inference.RetriesAreForgotten | fast_api.py:42-69 | after any run of transient attempts the result is that of the remaining attempts alone, with a fresh accumulator, at one extra request per transient attempt |
| Inference.DecidedByFirstNonTransient | fast_api.py:42-74 | when there is a result, every earlier attempt was transient and the last one sent was not; the result is `""` for an error status and that attempt's stream outcome otherwise |
| Inference.ForbiddenAborts | fast_api.py:70-74 | a 403 gives `""` after one request and is not retried |
| Inference.RetryThenHello | fast_api.py:63-69 | a 503 followed by a 200 carrying that `Hel`/`lo` stream of real frames gives `Hello` after two requests |
| Inference.RunInference | fast_api.py:25-74 | the loop over attempts sends one request per attempt until one is not transient, and agrees with `Inference` on the result and the request count; each request carries the caller's messages, the model, the single stop token `StopToken` (the end-of-turn marker), `stream` and `include_usage`; a first error status gives `""` after one request with nothing printed; a returned text equals its printed fragments joined |
| Text.Decimal | enterprise_knowledge_retriever/streamlit/app.py:37 | the numeral of `index` is a non-empty string of digits without a leading zero |
| Text.DecimalRoundTrip | enterprise_knowledge_retriever/streamlit/app.py:37 | reading the numeral back gives the number |
| Retriever.Entry | enterprise_knowledge_retriever/streamlit/app.py:37 | one entry is longer than the name it shows |
| Retriever.Listing | enterprise_knowledge_retriever/streamlit/app.py:33-38 | the sources text is empty exactly when there are no sources |
| Retriever.ListingNumbersEntries | enterprise_knowledge_retriever/streamlit/app.py:33-38 | the sources text is the entries `<font size="2" color="grey">{i}. {name}</font>  \n` for `i` = 1..n, in the order the names were met |
| Retriever.EnumerationSize | enterprise_knowledge_retriever/streamlit/app.py:29-32 | a duplicate-free listing of a set of names has exactly as many entries as the set has names |
| Retriever.BuildSourcesText | enterprise_knowledge_retriever/streamlit/app.py:29-38 | the text lists some ordering of the distinct filenames, each exactly once, numbered from 1; there is one entry per distinct filename; the text is empty exactly when there are no source documents |
| Retriever.EveryOtherAt | enterprise_knowledge_retriever/streamlit/app.py:42 | element `i` of `s[::2]` is element `2i` of `s` |
| Retriever.EveryOther | enterprise_knowledge_retriever/streamlit/app.py:42 | `s[::2]` has `(n + 1) / 2` elements for `n` elements of `s`; its elements are stated by `EveryOtherAt` |
| Retriever.Odds | enterprise_knowledge_retriever/streamlit/app.py:43 | `s[1::2]` has `n / 2` elements for `n` elements of `s` |
| Retriever.Zip3 | enterprise_knowledge_retriever/streamlit/app.py:41-45 | `zip` of three lists stops at the shortest: its length is the least of the three; its elements are stated by `Zip3At` |
| Retriever.Pairs | enterprise_knowledge_retriever/streamlit/app.py:41-45 | defines the rendered turns as the zip of questions, answers and sources texts; `PairingIsComplete` and `PairsAppend` state its properties |
| Retriever.Zip3At | enterprise_knowledge_retriever/streamlit/app.py:41-45 | element `i` of the zip takes element `i` of each argument |
| Retriever.PairingIsComplete | enterprise_knowledge_retriever/streamlit/app.py:41-45 | with two chat entries per sources entry, the zip drops nothing: turn `i` is question `2i`, answer `2i+1` and sources entry `i` |
| Retriever.PairsAppend | enterprise_knowledge_retriever/streamlit/app.py:26-45 | appending a question, an answer and a sources text adds exactly one turn at the end and keeps the earlier turns |
| Retriever.Truthy | enterprise_knowledge_retriever/streamlit/app.py:23 | defines Python truthiness of the question: it is neither `None` nor `""` |
| Retriever.Session.Valid | enterprise_knowledge_retriever/streamlit/app.py:26-45 | the invariant every handler keeps: two chat entries per sources entry, the question box enabled only once a chain exists, and a chain or store only once the retrieval helper exists |
| Retriever.Session.constructor | enterprise_knowledge_retriever/streamlit/app.py:70-83 | a fresh session has empty histories, sources shown, the question box disabled and no chain, store or retrieval helper; the invariant holds |
| Retriever.Session.SetCredentials | enterprise_knowledge_retriever/streamlit/app.py:94-97 | the retrieval helper exists afterwards exactly when it existed before or both credentials are non-empty; nothing else changes |
| Retriever.Session.Process | enterprise_knowledge_retriever/streamlit/app.py:115-136 | either Process button creates the store and the chain and enables the question box; the histories are unchanged |
| Retriever.Session.Load | enterprise_knowledge_retriever/streamlit/app.py:147-161 | an empty path reports a missing path, an absent path reports it missing, and both leave the store, the chain and the flag unchanged; an existing path loads the store, creates the chain and enables the question box |
| Retriever.Session.SetShowSources | enterprise_knowledge_retriever/streamlit/app.py:170 | the "Show sources" checkbox sets `show_sources` to its value and changes nothing else |
| Retriever.Session.Reset | enterprise_knowledge_retriever/streamlit/app.py:176-178 | both histories become empty and nothing else changes |
| Retriever.Session.HandleUserInput | enterprise_knowledge_retriever/streamlit/app.py:22-39 | a falsy question changes nothing; a truthy one appends the question then the answer to the chat history and one sources text listing the distinct filenames to the sources history, which adds exactly one rendered turn; the invariant of two chat entries per sources entry is kept |
| Retriever.Session.ChatTurn | enterprise_knowledge_retriever/streamlit/app.py:183-184 | while the question box is disabled nothing typed reaches the histories; otherwise a truthy question adds two chat entries and one sources entry listing the filenames |

## Left out

- HTTP transport: `requests.post`, `iter_lines`, the UTF-8 decoding of each line, and network exceptions other than a status code (timeouts, broken connections). Each attempt is given as a status and decoded lines.
- `json.loads` is the parameter `parse`. A `Chunk` models only the JSON shapes that lead to a skip or an append. These shapes raise instead, escape the `except json.JSONDecodeError`, and leave `run_inference`, but are not modelled:
  - a decoded value that is not an object: `"choices" in 5` raises `TypeError`, and a string or list that contains `"choices"` raises at `json_response["choices"]`;
  - a `choices` that is `null` or a number (`len` raises `TypeError`), or a non-empty object (`[0]` raises `KeyError`); an empty object has length 0 and is skipped, as `Parsed(Some([]))` models it;
  - a first choice or `delta` that is `null` or not an object: `.get` raises `AttributeError`;
  - a truthy `content` that is not a string (`true`, a number, a list): `full_response += content` raises `TypeError`.

  `Delta.content == None` stands for both a missing key and `null`, which are both falsy and skipped.
- The headers, the `KEY`, `URL` and `MODEL` constants, `load_dotenv` and `version`: the model identifier is a parameter of `BuildPayload`.
- `time.sleep`, `print` of status messages and logging. The fragments the stream loop prints are the `printed` output of `StreamResponse`.
- Inference.Inference: does not bound the number of retries. The source retries by a nested call inside the `except` handler, so each transient status adds one `run_inference` frame. After about a thousand consecutive transient statuses (the interpreter's recursion limit, less the depth of `requests.post`) the program raises `RecursionError`, which escapes `run_inference`. The model instead reads a finite list of attempts and retries through all of them. `None` means every attempt given was transient.
- Retriever.BuildSourcesText: the iteration order of a Python `set` is not fixed. The model picks any name not yet listed, so its contract speaks of some ordering of the distinct filenames, not of one in particular.
- Streamlit rendering: chat messages, markdown, expanders, spinners, toasts, uploaders and the data-source selector. The `show_sources` flag that `SetShowSources` sets is read only when the sources expander is drawn.
- `strip()` on the save location and database path text boxes. The path reaches `Load` already stripped. The save location and `PERSIST_DIRECTORY` only name where the store is written.
- The chain's response is assumed to carry `answer`, `source_documents`, and a `filename` in each document's metadata. In the source, `handle_userinput` appends the question before it reads those keys. A missing key raises `KeyError` after one or two chat entries and before the sources entry. `chat_history` then stays ahead of `sources_history` for the rest of the session, and the zip pairs later answers with the wrong questions. The model's `answer` and `filenames` inputs cannot express that failure.
- `DocumentRetrieval` and its parsing, embedding, vector-store and chain calls are external collaborators. The model records only whether the retrieval helper, the vector store and the chain are set. An exception in them is not modelled.
- financial_insights/streamlit/utilities_methods.py is not part of this model. It captures standard output, wraps an external function-calling model, and dispatches rendering on result types.
