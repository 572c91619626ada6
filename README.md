# crewai_docs_updater — a Dafny model of the translation pipeline

crewai_docs_updater translates the crewAI documentation into other
languages. It lists the documentation files of the repository and fetches
and chunks each file. It asks a language model for each file's translated
path. It then translates every chunk, retrying a failed call, and joins the
translated chunks back into one text. This project models the deterministic
control logic of that pipeline in Dafny:

- `github_client.dfy` (module `GithubClient`): the documentation-file
  filter of `GithubClient.get_files`. The repository tree is an input: its
  paths, in tree order.
- `file_translation_service.dfy` (module `TranslationService`): the class
  `FileTranslationService`. It holds `get_files`, the batched stage loops
  `chunk_files` (batches of 10), `determine_files_translation_path`
  (batches of 10) and `translate_files` (batches of 1, with a 3-second
  pause after each). It also holds the bounded retry of `translate_chunk`
  (3 attempts, 5 seconds between failures) and the reassembly in
  `translate_file`.
- `main.dfy` (module `DocsUpdaterFlow`): the class `CrewDocsUpdaterFlow`
  with its four steps. `get_file_content` appends the first-flow guide.
  `chunk_file` chunks the first file. `translate_file` translates its chunks
  ten at a time, prints one progress line per batch and extends
  `translated_chunks`. `save_file` writes `tmp/<timestamp>/<path>`.
- Shared modules: `types.dfy` holds `File` as a class whose fields the
  stages update in place, and `FileRecord` as a snapshot of those fields.
  `batching.dfy` holds the `items[i : i + batch_size]` slicing of every
  stage loop. `gathering.dfy` holds `asyncio.gather` over one group of
  replies. `strings.dfy` holds `"\n\n".join`, `startswith` and `endswith`.
  `wrappers.dfy` holds `Option` and `Result`.

`asyncio.gather` returns its results in input order, and every task writes
only to its own `File`. Each batch is therefore modelled as a loop over its
items in list order. The language model is a function parameter that returns
either the reply's `.raw` text or the exception it raised. The chunk agent of
the service also receives the attempt number, so that a retry can see a
different answer. The repository fetch and `MdxChunker(...).chunk()` are
function parameters as well.

Behaviour the model takes from the code, where a reader might expect
otherwise:
- `save_file` writes to `tmp/<timestamp>/` + the file's source `path`. It
  does not use a translated destination path (main.py:80).
- A translated path is the model's raw answer, stored verbatim. No check
  rejects an ambiguous path (file_translation_service.py:52).
- After three failed attempts, the retry re-raises the last exception
  unchanged. It is not tagged with the attempt count
  (file_translation_service.py:94-97).
- A failing file stops `translate_files`. Earlier files keep their
  translations, and the failing file and all later files are untouched.
  There is no per-document isolation.

## Model

| member | source | states |
|---|---|---|
| `GithubClient.DocFilePathsAreMatchingTreePaths` | src/crewai_docs_updater/clients/github_client.py:21-29 | the listing is the tree restricted to the matching paths: positions strictly increase (a subsequence in tree order) and a tree position is kept if and only if its path matches |
| `GithubClient.DocFileIndicesAligned` | src/crewai_docs_updater/clients/github_client.py:21-26 | the j-th listed path is the tree path at the j-th kept position, and kept positions strictly increase |
| `GithubClient.DocFileIndicesExact` | src/crewai_docs_updater/clients/github_client.py:26-28 | a tree position is kept if and only if its path starts with `docs_dir + "/"` and ends with `.mdx` or `.md` |
| `GithubClient.DocFilePathsSound` | src/crewai_docs_updater/clients/github_client.py:27-28 | every listed path starts with `docs_dir + "/"` and ends with `.mdx` or `.md` |
| `GithubClient.DocFilePathsComplete` | src/crewai_docs_updater/clients/github_client.py:21-29 | every tree path under `docs_dir/` with a documentation extension is listed |
| `GithubClient.DirectoryAndSiblingExcluded` | src/crewai_docs_updater/clients/github_client.py:27 | because of the trailing `/`, the path `docs_dir` itself and a sibling such as `docs_dir-US/x.md` are not listed |
| `GithubClient.GetFiles` | src/crewai_docs_updater/clients/github_client.py:17-29 | one fresh, distinct `File` per listed path, in listing order, with no content, empty chunk lists and no translation fields |
| `Types.File.constructor` | src/crewai_docs_updater/types.py:6-10 | a new `File` has the given path and content, and empty `chunks` and `translated_chunks` |
| `Strings.JoinSmall` | src/crewai_docs_updater/main.py:84 | joining no chunks gives `""`; joining one chunk gives that chunk unchanged |
| `Strings.JoinSplit` | src/crewai_docs_updater/main.py:84 | exactly one separator stands between consecutive chunks: cutting the list anywhere splits the join around one `"\n\n"` |
| `Strings.JoinLength` | src/crewai_docs_updater/main.py:84 | the join of k ≥ 1 chunks has the chunks' total length plus 2·(k−1) for the `"\n\n"` separators |
| `Batching.BatchesCover` | src/crewai_docs_updater/services/file_translation_service.py:28-29 | the slices `[i : i + batch_size]` together cover the list exactly once, in order |
| `Batching.BatchesShape` | src/crewai_docs_updater/main.py:64-65 | the j-th batch starts at `j * batch_size` and holds between 1 and `batch_size` items; consecutive batches meet without overlap |
| `Batching.BatchesCount` | src/crewai_docs_updater/main.py:64-67 | there are ceil(n / batch_size) batches |
| `Batching.PositionBatches` | src/crewai_docs_updater/services/file_translation_service.py:27-31 | the index `i + idx` reported for the idx-th file of a batch is that file's position in the list, and the batches visit every position once, in order |
| `Batching.NextBatch` | src/crewai_docs_updater/services/file_translation_service.py:28-29 | taking the slice at `i` and moving on to `i + batch_size` keeps the batches taken plus those ahead equal to all batches |
| `Gathering.GatherAligned` | src/crewai_docs_updater/services/file_translation_service.py:99-101 | gather succeeds exactly when no reply raised; then the k-th text is the k-th reply's, otherwise the error is one a reply raised |
| `Gathering.GatherAppend` | src/crewai_docs_updater/main.py:69-71 | gathering one more reply extends the texts, or keeps the earlier error |
| `TranslationService.RetryFromBounded` | src/crewai_docs_updater/services/file_translation_service.py:69-97 | from any attempt, the retry loop makes at most 3 calls, returns the reply of its last call, all earlier calls failed, a failure is re-raised only after the third attempt, and it waited once after every failed call but the last |
| `TranslationService.RetryReturnsFirstSuccess` | src/crewai_docs_updater/services/file_translation_service.py:70-72 | a success on attempt k after k failures is returned as it is, after k+1 calls and k waits |
| `TranslationService.RetryReraisesThirdFailure` | src/crewai_docs_updater/services/file_translation_service.py:87-97 | three failures in a row: the third one is re-raised after three calls and two waits |
| `TranslationService.RetryReplies` | src/crewai_docs_updater/services/file_translation_service.py:99 | one retry outcome per chunk, in chunk order |
| `TranslationService.TranslateChunk` | src/crewai_docs_updater/services/file_translation_service.py:68-97 | the attempt loop returns the reply, the number of calls and the seconds slept that the retry specification gives (5 s per wait) |
| `TranslationService.TranslatedFileIsAligned` | src/crewai_docs_updater/services/file_translation_service.py:99-102 | after a successful translation `translated_chunks` has as many entries as `chunks`, entry i is the translation of chunk i, `translation_content` is their `"\n\n"` join, and nothing else changes |
| `TranslationService.FileTranslationService.constructor` | src/crewai_docs_updater/services/file_translation_service.py:11-13 | the service starts with no files |
| `TranslationService.FileTranslationService.GetFiles` | src/crewai_docs_updater/services/file_translation_service.py:15-19 | `_files` becomes exactly the client's listing for `docs_path/primary_language`, and that same list is returned |
| `TranslationService.FileTranslationService.ChunkFile` | src/crewai_docs_updater/services/file_translation_service.py:22-24 | the file's content becomes the fetched text and its chunks the chunker's split of that text; nothing else changes |
| `TranslationService.FileTranslationService.ChunkFiles` | src/crewai_docs_updater/services/file_translation_service.py:21-33 | every file is fetched and chunked once; the reported positions are the batches of 10 of `0..n-1`; the same list is returned |
| `TranslationService.FileTranslationService.ChunkBatch` | src/crewai_docs_updater/services/file_translation_service.py:29-31 | the files of one batch are each fetched and chunked once, reporting positions `i + idx` in order; files outside the batch are unchanged |
| `TranslationService.FileTranslationService.DetermineFileTranslationPath` | src/crewai_docs_updater/services/file_translation_service.py:38-53 | the file's translation path becomes the agent's raw answer verbatim; no other field changes |
| `TranslationService.FileTranslationService.DetermineFilesTranslationPath` | src/crewai_docs_updater/services/file_translation_service.py:35-64 | every file gets its translation path once, in batches of 10 over positions `0..n-1`; the same list is returned |
| `TranslationService.FileTranslationService.DeterminePathBatch` | src/crewai_docs_updater/services/file_translation_service.py:57-62 | the files of one batch each get their translation path once, reporting positions `i + idx` in order; files outside the batch are unchanged |
| `TranslationService.FileTranslationService.TranslateFile` | src/crewai_docs_updater/services/file_translation_service.py:67-102 | on success the file holds the aligned translations and their join; on failure the error is that of a failing chunk and the file is unchanged |
| `TranslationService.FileTranslationService.TranslateBatch` | src/crewai_docs_updater/services/file_translation_service.py:105-108 | the files of the batch before the failing one are translated; the failing file and those after it are unchanged |
| `TranslationService.FileTranslationService.TranslateFiles` | src/crewai_docs_updater/services/file_translation_service.py:66-112 | files before the first failing one are translated, it and later files are untouched, 3 s are slept per completed file, and on success the same list is returned |
| `DocsUpdaterFlow.BatchProgress` | src/crewai_docs_updater/main.py:66-68 | the batch number lies between 1 and the total, which is ceil(n/10); the range shown is `i+1 .. min(i+10, n)` with `i+1 ≤ last ≤ n` and covers the batch's chunks |
| `DocsUpdaterFlow.BatchProgressMatchesBatch` | src/crewai_docs_updater/main.py:64-68 | the j-th progress line names batch j+1, its range is exactly the chunks of the j-th batch, and its total is the number of batches |
| `DocsUpdaterFlow.StartBatch` | src/crewai_docs_updater/main.py:64-68 | starting the batch at `i` appends the next slice and its progress line |
| `DocsUpdaterFlow.ExtendByBatch` | src/crewai_docs_updater/main.py:69-71 | extending with a gathered batch keeps the earlier translations and appends the batch's translations in chunk order |
| `DocsUpdaterFlow.BatchedTranslationIsWholeGather` | src/crewai_docs_updater/main.py:63-71 | starting from empty `translated_chunks`, once all batches are added the list has length `len(chunks)` and equals one gather over all chunks: element k is the translation of chunk k |
| `DocsUpdaterFlow.FailedBatchHasRaisingChunk` | src/crewai_docs_updater/main.py:69-70 | a batch whose gather raised contains a chunk on which the agent raised that error |
| `DocsUpdaterFlow.OutputPathInjective` | src/crewai_docs_updater/main.py:80 | the output path lies in `tmp/<timestamp>/` followed by the file's path unchanged, so two files share an output path only if their paths are equal |
| `DocsUpdaterFlow.TranslateInBatches` | src/crewai_docs_updater/main.py:63-71 | the batches started are the first batches of 10 in order, each with its progress line; `translated_chunks` is extended by the translations of the completed batches only; on error the last started batch's gather raised |
| `DocsUpdaterFlow.CrewDocsUpdaterFlow.constructor` | src/crewai_docs_updater/types.py:13-17 | the state starts with repo `crewAIInc/crewAI`, primary language `en`, secondary languages `["pt-BR"]` and no files |
| `DocsUpdaterFlow.CrewDocsUpdaterFlow.GetFileContent` | src/crewai_docs_updater/main.py:19-28 | exactly one new file, `docs/en/guides/flows/first-flow.mdx` with its fetched content, is appended; earlier entries are kept |
| `DocsUpdaterFlow.CrewDocsUpdaterFlow.ChunkFile` | src/crewai_docs_updater/main.py:31-34 | only `files_outdated[0].chunks` changes, to the chunker's split of its content; an empty list raises an index error |
| `DocsUpdaterFlow.CrewDocsUpdaterFlow.TranslateFile` | src/crewai_docs_updater/main.py:37-72 | the batched loop on the first file: only its `translated_chunks` changes, as `TranslateInBatches` states; other files are unchanged; an empty list raises an index error |
| `DocsUpdaterFlow.CrewDocsUpdaterFlow.SaveFile` | src/crewai_docs_updater/main.py:75-86 | one write per file, in list order, at `tmp/<timestamp>/<path>` with the `"\n\n"` join of its translated chunks |

## Left out

- `MdxChunker` is not part of this model. `chunk()` is an uninterpreted function parameter, so nothing is claimed about chunk boundaries or code fences.
- The language model (`translator_agent.kickoff_async` and the `Agent` in main.py) is a function parameter. The prompt text is not modelled.
- GitHub I/O is not modelled: reading the branch and the recursive tree, the HTTP request and base64 decoding of `get_file_content_async`, `_get_file_content`, and `services/github_service.py`. The tree's paths and a fetch function are inputs instead.
- The clock, `os.makedirs` and the file writes of `save_file` are left out. The timestamp is an input, and the writes are returned as (path, text) pairs.
- The `print` progress messages are left out. Only the batch arithmetic of the progress line in main.py `translate_file` is modelled, as `Progress` values.
- Concurrency is not modelled. `asyncio.gather` is an in-order sequential map. The durations of `asyncio.sleep(5)` and `sleep(3)` appear only as counted seconds.
- Gathering.Gather: when several replies of one gather raise, the model reports the first one in input order. Which one the program actually surfaces depends on scheduling.
- TranslationService.FileTranslationService.ChunkFiles: does not model a failed fetch (`get_file_content_async` raising on a non-200 status). In a batch of 10 the resulting partial state depends on scheduling.
- TranslationService.FileTranslationService.DetermineFilesTranslationPath: does not model the agent raising, for the same reason.
- The crewAI `Flow` decorators, `kickoff` and `plot` are framework wiring and are left out. `agents/translator_agent.py` is configuration and is also left out.
- The pydantic model is not modelled as a validator. `File` carries the `translation_path` and `translation_content` attributes the service attaches, and its `content` is optional because the listing creates files with `None`. Validation failures are not modelled.
