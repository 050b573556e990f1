# rubi-lite, modelled in Dafny

rubi-lite is a small personal-assistant backend with four parts:

- **main.py, the message router.** A `POST /message` strips the text and records it in a conversation memory. This memory is a `deque` that keeps the last 20 turns. The router asks a language model (Ollama) to classify the message, lower-cases the label, and dispatches on it:
  - `save_note` and `save_link` append a task to `queue.json`;
  - `retrieve` asks a retrieval service;
  - everything else goes back to the language model, with the memory as history.
  `POST /note`, `/link` and `/upload` first authenticate the caller, then append a task to the same queue.
- **rag-backend/rag.py, an in-memory retrieval store.** It appends `{"text": ...}` records to `rag_memory.json`. A query scores every record against the prompt, sorts by score, and returns the best ten.
- **rag.py, a FAISS-backed store.** It keeps an index of embeddings next to a parallel list of texts and persists both. A query looks up the ids a nearest-neighbour search returns.
- **auth.py, the login.** A codeword table, a login that puts the codeword in the `rubi_sid` cookie, and the `require_user` dependency that turns the cookie back into the user's record.

## Modules

- `wrappers.dfy` (`Wrappers`): `Option`, plus `Outcome`, which is `Ok` or `Raised(status, detail)` for an HTTP error.
- `text.dfy` (`Text`): Python's `str.strip()` over the full `isspace` set, and `str.lower()` as far as it can produce ASCII.
- `auth.dfy` (`Auth`): `require_user`, `login` and `whoami` as pure functions over the `USERS` map.
- `router.dfy` (`Router`):
  - the class `Assistant` holds `conversation_memory` and `queue.json`;
  - its methods follow the endpoints statement by statement;
  - each method is proved equal to a specification function (`MessageStep`, `NoteStep`, `LinkStep`, `UploadStep`);
  - the properties of those functions are proved as lemmas.
- `rag_memory.dfy` (`RagMemory`): the class `MemoryFile` holds the record list. The sort is an in-place insertion sort on an array, proved to be a permutation that is sorted by score.
- `vector_store.dfy` (`VectorStore`): the class `Store` holds the index, the document list and the two files. The query endpoint runs the result filter as written; the intended filter is modelled beside it (see Findings).

## External calls

Every external call is an oracle passed in as a parameter.

- **The language model** is `Llm = string -> Option<string>`, applied to the full prompt. `None` stands for any exception inside the `try`: a transport error, a timeout, a bad status, unreadable JSON, or a `"response"` field that is not a string. A missing `"response"` field is `Some("")`. Because the oracle is a function, one prompt always gets one reply.
- **The retrieval service** called by `/message` is `RagService = string -> Option<seq<string>>`.
- **The cosine-similarity scorer** of rag-backend is `Scorer = (string, string) -> real`.
- **rag.py's embedder and FAISS search** are `Embedder` and `Search`. The answer a flat FAISS index gives is stated as the predicate `FaissResult`: ten ids, of which the first `min(10, n)` are real positions and the rest are `-1`.
- **Timestamps** are a parameter `now`.
- **Files** are whole values in fields: `Option<...>`, which is `None` while the file does not exist.

## Model

| member | source | states |
|---|---|---|
| Text.Strip | main.py:102 | `strip()` gives the empty string exactly for a blank text. Otherwise the result neither starts nor ends with whitespace, and it is the slice of the input after its leading whitespace, with only whitespace after it. |
| Text.StripIdempotent | main.py:102 | Stripping an already stripped text changes nothing. |
| Text.Lower | main.py:109 | `lower()` keeps the length and lowers each character independently. |
| Text.LowerFixesLabels | main.py:109-113 | A lower-case label is its own `lower()`. |
| Auth.LoadUsers | auth.py:8-14 | `USERS` is the stored table. When the file is missing it is the seed, which holds `open-sesame` with no `"user"` field. |
| Auth.RequireUser | auth.py:19-23 | Succeeds exactly when the `rubi_sid` cookie is present, non-empty and a key of `USERS`; otherwise 401. On success the keys are the stored keys plus `"codeword"`, every stored field is unchanged, and `"codeword"` is the cookie value unless the record stores its own. |
| Auth.Login | auth.py:26-33 | Succeeds exactly when the payload's `"codeword"` is present, non-empty and known; otherwise 401. On success the reply sets `rubi_sid` to the codeword. |
| Auth.WhoAmI | auth.py:35-38 | `whoami` answers exactly what `require_user` answers, errors included. |
| Auth.LoginAcceptsWhatRequireUserAccepts | auth.py:21-30 | `login` and `require_user` accept the same codewords. |
| Auth.LoginThenRequireUser | auth.py:19-33 | After a successful login the cookie holds the codeword. The next `require_user` then succeeds and returns every stored field. |
| Auth.SeededUserHasNoUserField | auth.py:11-23 | With the seeded table, `open-sesame` is accepted and its record has no `"user"` field. |
| Router.Latest | main.py:21 | The last `n` elements of a sequence, or all of them when there are fewer, in order. |
| Router.Pushed | main.py:21 | Appending to the deque keeps the last 20 of the old turns plus the new one. The memory never exceeds 20 turns and ends with the new turn. |
| Router.LatestOfLatest | main.py:21 | Truncating to the last `n` and then appending and truncating again equals appending everything and truncating once. |
| Router.PushedAllIsLatest | main.py:21 | After any number of appends, the memory is exactly the last 20 of all turns so far, oldest first. |
| Router.RenderedInOrder | main.py:46-51 | The history string has each turn, in order, as `User: text` or `Assistant: text` followed by a newline. |
| Router.Normalized | main.py:56-61 | A failed call answers `[Error querying LLM]`. A blank reply becomes `[no response]`, and any other reply is stripped. The answer is never empty and never starts or ends with whitespace. |
| Router.AfterCall | main.py:56-61 | A successful call appends its normalised reply as an assistant turn. A failed call appends nothing. |
| Router.OnlySaveLabelsReachQueue | main.py:113-156 | Only the exact labels `save_note` and `save_link` route to the queue, and only `retrieve` routes to the retrieval service. Every other label, `upload_file` included, routes to the language model. |
| Router.LabelReplyRoutes | main.py:109 | A classifier reply whose stripped text is a lower-case label, whatever whitespace surrounds it, is routed by that label. |
| Router.LabelsIgnoreCase | main.py:109-142 | Because the label is lower-cased first, `SAVE_NOTE`, `Save_Link` and `RETRIEVE` route to the queue and the retrieval service like their lower-case spellings. |
| Router.Classified | main.py:106-109 | Recording the user turn and the classifier's reply keeps the memory within 20 turns. |
| Router.BlankInputChangesNothing | main.py:102-104 | A blank message is rejected with `Empty message`. A blank note or URL from an authenticated caller is rejected with `Empty note` or `Empty URL`. In every case neither the memory nor the queue changes. |
| Router.MessageSplits | main.py:101-156 | A non-blank message is first classified and then dispatched on the lower-cased label. |
| Router.ClassifiedMemory | main.py:106-109 | After classification the memory is the last 20 of: the earlier turns, the stripped user text, and the classifier's reply if that call succeeded. |
| Router.DispatchedMemory | main.py:112-156 | Dispatch adds a turn only on the language-model route: the answer to the stripped text with the current memory as history. Every other route leaves the memory as it is. |
| Router.MessageMemory | main.py:101-156 | Over a whole `/message`, the memory is the last 20 of the earlier turns, the user turn, the classifier reply and, on the language-model route, the answer. The answer's prompt carries the memory as it stood after classification. |
| Router.DispatchedQueue | main.py:118-140 | `save_note` and `save_link` each append one owner-less note or link, keep the earlier entries and answer the new index. Any other label leaves the queue untouched. |
| Router.MessageQueue | main.py:113-140 | Over a whole `/message`, the queue grows by one note or link exactly for those two labels. The answer is the old length. Otherwise the queue file is unchanged. |
| Router.AuthenticatedEndpoints | main.py:159-207 | For any user table: a caller `require_user` rejects gets its 401 detail, and neither memory nor queue changes. An accepted caller appends exactly one task of the endpoint's kind after the earlier entries, owned by the `"user"` field of the caller's record, and gets its index. A note or link needs a non-blank text for this. |
| Router.SeededOwnerIsNone | main.py:159-207 | With the seeded users, each of `/note`, `/link` and `/upload` appends exactly one task of its kind, owned by `None`, and answers its index. |
| Router.Assistant.constructor | main.py:21 | The memory starts empty and `queue.json` is whatever is on disk. |
| Router.Assistant.Remember | main.py:106 | `conversation_memory.append` leaves the memory equal to `Pushed` of the old one. |
| Router.Assistant.SaveQueue | main.py:39-40 | `save_queue` replaces the whole queue file and leaves the memory alone. |
| Router.Assistant.BuildPrompt | main.py:46-51 | The `+=` loop builds the history string followed by `User: {prompt}`, a newline and `Assistant:`. |
| Router.Assistant.QueryOllama | main.py:42-61 | Returns the normalised reply to the full prompt and leaves the memory as `AfterCall`. The queue is untouched. |
| Router.Assistant.ClassifyIntent | main.py:63-74 | Sends the classifier instruction with no history, and records its reply like any other call. |
| Router.Assistant.Enqueue | main.py:120-128 | Loads the queue, appends one task, saves it, and answers the index of the new task. |
| Router.Assistant.HandleMessage | main.py:100-156 | The endpoint's new memory, new queue file and response are those of `MessageStep`, whose properties are the lemmas above. |
| Router.Assistant.Dispatch | main.py:112-156 | The `if`/`elif` chain agrees with `Dispatched`. |
| Router.Assistant.AddNote | main.py:159-171 | Agrees with `NoteStep`: authenticate (401), refuse a blank note, then queue the unstripped text with the caller's `"user"` field as owner. `AuthenticatedEndpoints` and `BlankInputChangesNothing` state what this does to the state. |
| Router.Assistant.AddLink | main.py:174-186 | Agrees with `LinkStep`: authenticate, refuse a blank URL, then queue it. `AuthenticatedEndpoints` and `BlankInputChangesNothing` state what this does to the state. |
| Router.Assistant.UploadFile | main.py:189-207 | Agrees with `UploadStep`: authenticate, then queue the file name and its path under `data/`. `AuthenticatedEndpoints` states what this does to the state. |
| RagMemory.MemoryFile.Open | rag-backend/rag.py:14-19 | A missing store starts as `[]`; an existing one is kept. |
| RagMemory.MemoryFile.AddDoc | rag-backend/rag.py:43-48 | Appends exactly `{"text": prompt}` after the earlier records and answers the new count. |
| RagMemory.MemoryFile.QueryRag | rag-backend/rag.py:28-41 | An empty store answers "No memory available.", and only then. Otherwise the answer holds `min(10, n)` records in non-increasing score order, each taken from the store and no more often than it is stored. No record left out scores above a returned one, and the store is unchanged. |
| RagMemory.Scores | rag-backend/rag.py:35-38 | Every record is paired with its own score, in stored order. |
| RagMemory.SortByScore | rag-backend/rag.py:39 | The in-place sort leaves the array ordered highest score first and a permutation of what it held. |
| RagMemory.InsertLast | rag-backend/rag.py:39 | One insertion step extends the sorted prefix by one element and permutes the array. |
| RagMemory.DocsPermutation | rag-backend/rag.py:39-41 | Reordering the scored pairs reorders their records the same way. |
| RagMemory.TopProperties | rag-backend/rag.py:39-41 | The first `k` of the sorted pairs are ranked, come from the store, and outscore every record after them. |
| VectorStore.Store.Start | rag.py:22-31 | Both files are loaded only when both exist. Otherwise the index and the list start empty and both files are written. |
| VectorStore.Store.Persist | rag.py:36-39 | Both files now hold the current index and list. |
| VectorStore.Store.AddDocument | rag.py:52-62 | A missing or empty text raises 400 and nothing changes. Otherwise one vector and one text are appended at the same position and both files are written. The answer is the new total, and the difference between vector count and list length is preserved. |
| VectorStore.Store.QueryDocuments | rag.py:64-73 | A missing or empty text raises 400. Otherwise the answer is the comprehension as written over the ids FAISS returns. Over a FAISS answer on an index in step with the list: ten or more stored texts give the ten nearest in FAISS's order; one to nine give those texts and then copies of the last stored text, ten in all; an empty store raises a 500. |
| VectorStore.FilterAsWritten | rag.py:72 | The comprehension as written fails, with a 500, exactly when some id lies below `-len(docs_store)`. Otherwise it returns at most as many texts as ids, each a stored text. |
| VectorStore.Filter | rag.py:72 | The intended comprehension returns at most as many texts as ids, each a stored text. |
| VectorStore.FilterOfFaiss | rag.py:71-72 | Over a FAISS answer the intended filter returns `min(10, n)` texts, the `k`-th being the one FAISS ranked `k`-th. |
| VectorStore.AsWrittenPadsWithLast | rag.py:72 | As written, every `-1` of FAISS's padding adds another copy of the last stored text after the real results. |
| VectorStore.AsWrittenRepeatsLastDocument | rag.py:72 | With 1 to 9 stored texts, the filter as written answers ten results. The first `n` are the intended ones and the rest repeat the last text. |
| VectorStore.AsWrittenFailsOnEmptyStore | rag.py:72 | With an empty store the filter as written raises, where the intended answer is no results. |
| VectorStore.AsWrittenAgreesWhenFull | rag.py:72 | With ten or more stored texts the two filters agree. |

## Left out

- HTTP, FastAPI routing, CORS, dotenv configuration and logging are left out. Each endpoint is a method over the process state.
- The two `requests.post` calls are not modelled directly. Each is an oracle that either answers or raises; the 10-second timeouts are part of "raises".
- Router.Assistant.HandleMessage: the early returns at main.py:104, 162 and 177 pass `400` and the error dictionary to `JSONResponse` positionally, so 400 becomes the body and the dictionary the status. The model records the intended error (`Rejected`) and that nothing changes, not the malformed HTTP response.
- Router.Assistant.UploadFile: the write of the uploaded bytes (main.py:194-196) is left out. The stored path is `data/` followed by the file name; path normalisation of names with directories or absolute names is not modelled.
- The contents of the retrieval service's reply are left out. `/message` passes on `results`, or `[]` when it is missing, as opaque strings.
- Task timestamps are an opaque `now` parameter.
- Auth.Login: the payload is a map from strings to strings, so a `"codeword"` of another JSON type is not modelled. In auth.py:28-29 a non-empty list or object makes `codeword not in USERS` raise `TypeError` (a 500). An empty one, a number, a boolean or `null` is refused with 401.
- `USERS` is read once at import and is a parameter of every function, so no endpoint can change it. Other fields of the login reply cookie (`httponly`, `samesite`) are left out.
- Text.Lower: only `A`–`Z` and the KELVIN SIGN are lowered. These are the only characters whose lower-case form is ASCII, so comparisons against the ASCII labels come out exactly as in Python; other case mappings are not modelled.
- RagMemory.MemoryFile.QueryRag: the contract leaves open which of several equally scored records is returned. Python sorts `(score, record)` pairs, so on a tie it compares the two records. Equal records (a text stored twice always ties with itself) compare equal and nothing happens. Two different records with the same score make Python raise `TypeError`, a 500; that failure is not modelled.
- Stored records other than `{"text": string}`, and store files that do not hold a list, are left out. The scores are real numbers from the scorer oracle; floating-point effects such as NaN are left out.
- VectorStore: the embedding dimension, L2 distances and the index file format are left out. The index is the sequence of its vectors.
- VectorStore.Store.AddDocument: a `"text"` value that is not a string is not modelled. The request text is `Option<string>`, so a truthy non-string cannot be expressed.
- The placeholder background thread `run_worker` in rag.py does nothing but sleep, and is left out.
- Requests are handled one at a time; the interleaving of concurrent `async` handlers over the shared module state is not modelled.

## Findings

| source | as written | input that shows it | evidently intended | confidence | as-written member | corrected member |
|---|---|---|---|---|---|---|
| rag.py:72 | `[docs_store[i] for i in indices[0] if i < len(docs_store)]` keeps FAISS's `-1` padding, which Python reads as the last element | `docs_store == ["a"]`, search answer `[0, -1, -1, -1, -1, -1, -1, -1, -1, -1]` gives ten copies of `"a"`; an empty store gives `docs_store[-1]`, an `IndexError` (500) | only real positions `0 <= i < len(docs_store)`, giving `min(10, n)` results | high; not executed | VectorStore.AsWrittenRepeatsLastDocument | VectorStore.FilterOfFaiss |
