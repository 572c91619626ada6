/**
 * The translation pipeline of `FileTranslationService`: list the
 * documentation files, fetch and chunk each one, ask the language model for
 * each file's translated path, and translate every chunk with a bounded
 * retry before joining the translations back together.
 *
 * `asyncio.gather` hands results back in input order and each task writes
 * only to its own `File`, so every batch is modelled as a loop over its
 * items in list order. The repository fetch, the chunker and the language
 * model are parameters of the stage that uses them.
 */
module TranslationService {
  import opened Wrappers
  import opened Types
  import opened Strings
  import opened Batching
  import opened Gathering
  import GithubClient

  /** Files fetched and chunked together in one batch. */
  const ChunkBatchSize: nat := 10
  /** Files whose translated path is asked for together in one batch. */
  const PathBatchSize: nat := 10
  /** Files translated together in one batch: one at a time. */
  const TranslateBatchSize: nat := 1
  /** Calls made for one chunk before its failure is re-raised. */
  const MaxAttempts: nat := 3
  /** Seconds waited after a failed chunk call that is not the last attempt. */
  const RetryDelaySeconds: nat := 5
  /** Seconds paused after each batch of whole-file translations. */
  const FilePauseSeconds: nat := 3

  /** The agent's reply to the `attempt`-th request to translate a chunk from one language into another. */
  type ChunkAgent = (string, string, string, nat) -> AgentResult

  /** The agent's raw answer when asked to translate a file path from one language into another. */
  type PathAgent = (string, string, string) -> string

  /** How one chunk's retry loop ends: the reply it returns or re-raises, the calls it made, the waits it slept. */
  datatype RetryResult = RetryResult(outcome: AgentResult, calls: nat, waits: nat)

  /** The retry loop of `translate_chunk` from attempt number `attempt` on. */
  function RetryFrom(agent: ChunkAgent, chunk: string, fromLanguage: string, toLanguage: string, attempt: nat): RetryResult
    requires attempt < MaxAttempts
    decreases MaxAttempts - attempt
  {
    match agent(chunk, fromLanguage, toLanguage, attempt)
    case Output(raw) => RetryResult(Output(raw), attempt + 1, attempt)
    case Raised(e) =>
      if attempt < MaxAttempts - 1 then RetryFrom(agent, chunk, fromLanguage, toLanguage, attempt + 1)
      else RetryResult(Raised(e), MaxAttempts, MaxAttempts - 1)
  }

  /**
   * What the retry loop promises: it returns the reply of the last call it
   * made; every call before that one failed; it stops at the first success
   * and never makes more than `MaxAttempts` calls; a failure is re-raised
   * only after the last attempt; and it waited once after every failed call
   * but the last one made.
   */
  lemma {:induction false} RetryFromBounded(agent: ChunkAgent, chunk: string, fromLanguage: string, toLanguage: string, attempt: nat)
    requires attempt < MaxAttempts
    ensures var r := RetryFrom(agent, chunk, fromLanguage, toLanguage, attempt);
      && attempt < r.calls <= MaxAttempts
      && r.waits == r.calls - 1
      && r.outcome == agent(chunk, fromLanguage, toLanguage, r.calls - 1)
      && (forall j :: attempt <= j < r.calls - 1 ==> agent(chunk, fromLanguage, toLanguage, j).Raised?)
      && (r.outcome.Raised? ==> r.calls == MaxAttempts)
    decreases MaxAttempts - attempt
  {
    if agent(chunk, fromLanguage, toLanguage, attempt).Raised? && attempt < MaxAttempts - 1 {
      RetryFromBounded(agent, chunk, fromLanguage, toLanguage, attempt + 1);
    }
  }

  /** `translate_chunk(chunk)`: the whole retry loop, from the first attempt. */
  function RetryChunk(agent: ChunkAgent, chunk: string, fromLanguage: string, toLanguage: string): RetryResult
  {
    RetryFrom(agent, chunk, fromLanguage, toLanguage, 0)
  }

  /** A reply on attempt k after k failures is returned as it is, after k + 1 calls and k waits. */
  lemma RetryReturnsFirstSuccess(agent: ChunkAgent, chunk: string, fromLanguage: string, toLanguage: string, k: nat)
    requires k < MaxAttempts
    requires agent(chunk, fromLanguage, toLanguage, k).Output?
    requires forall j :: 0 <= j < k ==> agent(chunk, fromLanguage, toLanguage, j).Raised?
    ensures RetryChunk(agent, chunk, fromLanguage, toLanguage)
      == RetryResult(agent(chunk, fromLanguage, toLanguage, k), k + 1, k)
  {
    RetryFromBounded(agent, chunk, fromLanguage, toLanguage, 0);
  }

  /** Three failures in a row: the third one is re-raised, after three calls and two waits. */
  lemma RetryReraisesThirdFailure(agent: ChunkAgent, chunk: string, fromLanguage: string, toLanguage: string)
    requires forall j :: 0 <= j < MaxAttempts ==> agent(chunk, fromLanguage, toLanguage, j).Raised?
    ensures RetryChunk(agent, chunk, fromLanguage, toLanguage)
      == RetryResult(agent(chunk, fromLanguage, toLanguage, MaxAttempts - 1), MaxAttempts, MaxAttempts - 1)
  {
    RetryFromBounded(agent, chunk, fromLanguage, toLanguage, 0);
  }

  /** The replies the chunks' retry loops end with, in chunk order. */
  function RetryReplies(agent: ChunkAgent, chunks: seq<string>, fromLanguage: string, toLanguage: string): (r: seq<AgentResult>)
    ensures |r| == |chunks|
    ensures forall k :: 0 <= k < |chunks| ==> r[k] == RetryChunk(agent, chunks[k], fromLanguage, toLanguage).outcome
  {
    if |chunks| == 0 then []
    else
      var n := |chunks| - 1;
      RetryReplies(agent, chunks[..n], fromLanguage, toLanguage) + [RetryChunk(agent, chunks[n], fromLanguage, toLanguage).outcome]
  }

  /**
   * The chunk translations of one file, gathered in chunk order: every raw
   * reply when every chunk's retry loop succeeds, otherwise the error of the
   * first chunk (in chunk order) whose loop re-raised.
   */
  function TranslateChunks(chunks: seq<string>, fromLanguage: string, toLanguage: string, agent: ChunkAgent): Result<seq<string>, string>
  {
    Gather(RetryReplies(agent, chunks, fromLanguage, toLanguage))
  }

  /** A file after `chunk_file`: its fetched content and the chunker's split of it. */
  function Chunked(rec: FileRecord, fetch: string -> string, chunker: string -> seq<string>): FileRecord
  {
    rec.(content := Some(fetch(rec.path)), chunks := chunker(fetch(rec.path)))
  }

  /** A file after `determine_file_translation_path`: the agent's raw answer stored as its translation path. */
  function WithTranslationPath(rec: FileRecord, fromLanguage: string, toLanguage: string, agent: PathAgent): FileRecord
  {
    rec.(translationPath := Some(agent(rec.path, fromLanguage, toLanguage)))
  }

  /** A file after a successful `translate_file`: its translated chunks and their join. */
  function WithTranslation(rec: FileRecord, raws: seq<string>): FileRecord
  {
    rec.(translatedChunks := raws, translationContent := Some(Join(raws, ChunkSeparator)))
  }

  /** `after` is `before` with every chunk translated and the translations joined. */
  ghost predicate TranslatedFrom(before: FileRecord, after: FileRecord, fromLanguage: string, toLanguage: string, agent: ChunkAgent)
  {
    match TranslateChunks(before.chunks, fromLanguage, toLanguage, agent)
    case Ok(raws) => after == WithTranslation(before, raws)
    case Err(_) => false
  }

  /**
   * After a successful translation the translated chunks line up with the
   * chunks one for one, and the content is their join with a blank line
   * between consecutive chunks; no other field changes.
   */
  lemma TranslatedFileIsAligned(rec: FileRecord, fromLanguage: string, toLanguage: string, agent: ChunkAgent)
    requires TranslateChunks(rec.chunks, fromLanguage, toLanguage, agent).Ok?
    ensures var t := WithTranslation(rec, TranslateChunks(rec.chunks, fromLanguage, toLanguage, agent).value);
      && |t.translatedChunks| == |rec.chunks|
      && (forall k :: 0 <= k < |rec.chunks| ==>
            RetryChunk(agent, rec.chunks[k], fromLanguage, toLanguage).outcome == Output(t.translatedChunks[k]))
      && t.translationContent == Some(Join(t.translatedChunks, "\n\n"))
      && t.(translatedChunks := rec.translatedChunks, translationContent := rec.translationContent) == rec
  {
    GatherAligned(RetryReplies(agent, rec.chunks, fromLanguage, toLanguage));
  }

  /**
   * `translate_chunk`: call the agent up to `MaxAttempts` times, return the
   * first success, sleep `RetryDelaySeconds` after each failure that is not
   * the last, and re-raise the last failure.
   */
  method TranslateChunk(chunk: string, fromLanguage: string, toLanguage: string, agent: ChunkAgent)
    returns (reply: AgentResult, calls: nat, slept: nat)
    ensures reply == RetryChunk(agent, chunk, fromLanguage, toLanguage).outcome
    ensures calls == RetryChunk(agent, chunk, fromLanguage, toLanguage).calls
    ensures slept == RetryChunk(agent, chunk, fromLanguage, toLanguage).waits * RetryDelaySeconds
  {
    ghost var spec := RetryChunk(agent, chunk, fromLanguage, toLanguage);
    reply, calls, slept := Raised(""), 0, 0;
    var attempt := 0;
    while attempt < MaxAttempts
      invariant attempt <= MaxAttempts
      invariant calls == attempt
      invariant slept == (if attempt < MaxAttempts then attempt else MaxAttempts - 1) * RetryDelaySeconds
      invariant attempt < MaxAttempts ==> spec == RetryFrom(agent, chunk, fromLanguage, toLanguage, attempt)
      invariant attempt == MaxAttempts ==> spec == RetryResult(reply, calls, MaxAttempts - 1)
    {
      var r := agent(chunk, fromLanguage, toLanguage, attempt);
      calls := calls + 1;
      if r.Output? {
        return r, calls, slept;
      }
      if attempt < MaxAttempts - 1 {
        slept := slept + RetryDelaySeconds;
      } else {
        reply := r;
      }
      attempt := attempt + 1;
    }
  }

  class FileTranslationService {
    /** `self._files`: the files of the current run, in listing order. */
    var files: seq<File>

    ghost predicate Valid()
      reads this
    {
      Distinct(files)
    }

    constructor ()
      ensures Valid() && files == []
    {
      files := [];
    }

    /**
     * `get_files`: replace the file list with the repository listing under
     * `docsPath/primaryLanguage` and return that same list.
     */
    method GetFiles(tree: seq<string>, docsPath: string, primaryLanguage: string) returns (r: seq<File>)
      modifies this
      ensures Valid() && files == r
      ensures |r| == |GithubClient.DocFilePaths(tree, docsPath + "/" + primaryLanguage)|
      ensures forall k :: 0 <= k < |r| ==>
        r[k].Record() == FileRecord(GithubClient.DocFilePaths(tree, docsPath + "/" + primaryLanguage)[k], None, [], [], None, None)
      ensures forall k :: 0 <= k < |r| ==> fresh(r[k])
    {
      files := GithubClient.GetFiles(tree, docsPath + "/" + primaryLanguage);
      r := files;
    }

    /** The inner `chunk_file`: fetch the file's content, then chunk it. */
    method ChunkFile(file: File, fetch: string -> string, chunker: string -> seq<string>)
      modifies file
      ensures file.Record() == Chunked(old(file.Record()), fetch, chunker)
    {
      file.content := Some(fetch(file.path));
      file.chunks := chunker(fetch(file.path));
    }

    /**
     * `chunk_files`: every file is fetched and chunked once, batch by batch;
     * `batches` lists the positions `i + idx` each batch reports.
     */
    method ChunkFiles(fetch: string -> string, chunker: string -> seq<string>) returns (r: seq<File>, batches: seq<seq<nat>>)
      requires Valid()
      modifies set f | f in files
      ensures Valid() && r == files
      ensures batches == Batches(Range(|files|), ChunkBatchSize)
      ensures forall k :: 0 <= k < |files| ==> files[k].Record() == Chunked(old(files[k].Record()), fetch, chunker)
    {
      var n := |files|;
      batches := [];
      var i := 0;
      while i < n
        invariant batches + BatchesFrom(Range(n), i, ChunkBatchSize) == Batches(Range(n), ChunkBatchSize)
        invariant forall k :: 0 <= k < n && k < i ==> files[k].Record() == Chunked(old(files[k].Record()), fetch, chunker)
        invariant forall k :: i <= k < n ==> files[k].Record() == old(files[k].Record())
      {
        var end := Min(i + ChunkBatchSize, n);
        var visited := ChunkBatch(i, end, fetch, chunker);
        NextBatch(Range(n), batches, i, ChunkBatchSize);
        batches := batches + [visited];
        i := i + ChunkBatchSize;
      }
      r := files;
    }

    /**
     * One batch of `chunk_files`: the files at positions `start` up to
     * `end` are fetched and chunked, reporting their positions in order;
     * every other file is unchanged.
     */
    method ChunkBatch(start: nat, end: nat, fetch: string -> string, chunker: string -> seq<string>) returns (visited: seq<nat>)
      requires Valid() && start <= end <= |files|
      modifies set k | start <= k < end :: files[k]
      ensures visited == Range(|files|)[start..end]
      ensures forall k :: start <= k < end ==> files[k].Record() == Chunked(old(files[k].Record()), fetch, chunker)
      ensures forall k :: 0 <= k < |files| && !(start <= k < end) ==> files[k].Record() == old(files[k].Record())
    {
      var batch := files[start..end];
      visited := [];
      for idx := 0 to |batch|
        invariant visited == Range(|files|)[start..start + idx]
        invariant forall k :: start <= k < start + idx ==> files[k].Record() == Chunked(old(files[k].Record()), fetch, chunker)
        invariant forall k :: 0 <= k < |files| && !(start <= k < start + idx) ==> files[k].Record() == old(files[k].Record())
      {
        ChunkFile(batch[idx], fetch, chunker);
        visited := visited + [start + idx];
      }
    }

    /** The inner `determine_file_translation_path`: store the agent's raw answer verbatim. */
    method DetermineFileTranslationPath(file: File, fromLanguage: string, toLanguage: string, agent: PathAgent)
      modifies file
      ensures file.Record() == WithTranslationPath(old(file.Record()), fromLanguage, toLanguage, agent)
    {
      file.translationPath := Some(agent(file.path, fromLanguage, toLanguage));
    }

    /**
     * `determine_files_translation_path`: every file gets the agent's answer
     * for its path as its translation path, batch by batch.
     */
    method DetermineFilesTranslationPath(fromLanguage: string, toLanguage: string, agent: PathAgent)
      returns (r: seq<File>, batches: seq<seq<nat>>)
      requires Valid()
      modifies set f | f in files
      ensures Valid() && r == files
      ensures batches == Batches(Range(|files|), PathBatchSize)
      ensures forall k :: 0 <= k < |files| ==>
        files[k].Record() == WithTranslationPath(old(files[k].Record()), fromLanguage, toLanguage, agent)
    {
      var n := |files|;
      batches := [];
      var i := 0;
      while i < n
        invariant batches + BatchesFrom(Range(n), i, PathBatchSize) == Batches(Range(n), PathBatchSize)
        invariant forall k :: 0 <= k < n && k < i ==>
          files[k].Record() == WithTranslationPath(old(files[k].Record()), fromLanguage, toLanguage, agent)
        invariant forall k :: i <= k < n ==> files[k].Record() == old(files[k].Record())
      {
        var end := Min(i + PathBatchSize, n);
        var visited := DeterminePathBatch(i, end, fromLanguage, toLanguage, agent);
        NextBatch(Range(n), batches, i, PathBatchSize);
        batches := batches + [visited];
        i := i + PathBatchSize;
      }
      r := files;
    }

    /**
     * One batch of `determine_files_translation_path`: the files at
     * positions `start` up to `end` get their translation paths, reporting
     * their positions in order; every other file is unchanged.
     */
    method DeterminePathBatch(start: nat, end: nat, fromLanguage: string, toLanguage: string, agent: PathAgent)
      returns (visited: seq<nat>)
      requires Valid() && start <= end <= |files|
      modifies set k | start <= k < end :: files[k]
      ensures visited == Range(|files|)[start..end]
      ensures forall k :: start <= k < end ==>
        files[k].Record() == WithTranslationPath(old(files[k].Record()), fromLanguage, toLanguage, agent)
      ensures forall k :: 0 <= k < |files| && !(start <= k < end) ==> files[k].Record() == old(files[k].Record())
    {
      var batch := files[start..end];
      visited := [];
      for idx := 0 to |batch|
        invariant visited == Range(|files|)[start..start + idx]
        invariant forall k :: start <= k < start + idx ==>
          files[k].Record() == WithTranslationPath(old(files[k].Record()), fromLanguage, toLanguage, agent)
        invariant forall k :: 0 <= k < |files| && !(start <= k < start + idx) ==> files[k].Record() == old(files[k].Record())
      {
        DetermineFileTranslationPath(batch[idx], fromLanguage, toLanguage, agent);
        visited := visited + [start + idx];
      }
    }

    /**
     * The inner `translate_file`: translate every chunk, and only when all
     * of them succeed store the translations and their join; otherwise
     * re-raise and leave the file as it was.
     */
    method TranslateFile(file: File, fromLanguage: string, toLanguage: string, agent: ChunkAgent)
      returns (error: Option<string>)
      modifies file
      ensures error.None? ==> TranslatedFrom(old(file.Record()), file.Record(), fromLanguage, toLanguage, agent)
      ensures error.Some? ==>
        && TranslateChunks(old(file.chunks), fromLanguage, toLanguage, agent) == Err(error.value)
        && file.Record() == old(file.Record())
    {
      var chunks := file.chunks;
      var raws: seq<string> := [];
      var failure: Option<string> := None;
      for k := 0 to |chunks|
        invariant match TranslateChunks(chunks[..k], fromLanguage, toLanguage, agent)
          case Ok(rs) => failure == None && raws == rs
          case Err(e) => failure == Some(e)
        invariant file.Record() == old(file.Record())
      {
        var reply, _, _ := TranslateChunk(chunks[k], fromLanguage, toLanguage, agent);
        assert chunks[..k + 1][..k] == chunks[..k];
        GatherAppend(RetryReplies(agent, chunks[..k], fromLanguage, toLanguage), reply);
        if failure.None? {
          match reply
          case Output(t) => raws := raws + [t];
          case Raised(e) => failure := Some(e);
        }
      }
      assert chunks[..|chunks|] == chunks;
      if failure.Some? {
        return failure;
      }
      file.translatedChunks := raws;
      file.translationContent := Some(Join(raws, ChunkSeparator));
      return None;
    }

    /**
     * One batch of `translate_files`: gather `translate_file` over the files
     * at positions `start` up to `end`. When one of them fails, the error is
     * re-raised; `failed` is its position, the files before it in the batch
     * are translated and it and the rest of the batch are untouched.
     */
    method TranslateBatch(start: nat, end: nat, fromLanguage: string, toLanguage: string, agent: ChunkAgent)
      returns (error: Option<string>, failed: nat)
      requires Valid() && start <= end <= |files|
      modifies set k | start <= k < end :: files[k]
      ensures error.None? ==> failed == end
      ensures error.Some? ==> (&& start <= failed < end
        && TranslateChunks(old(files[failed].chunks), fromLanguage, toLanguage, agent) == Err(error.value))
      ensures forall k :: start <= k < failed ==>
        TranslatedFrom(old(files[k].Record()), files[k].Record(), fromLanguage, toLanguage, agent)
      ensures forall k :: failed <= k < end ==> files[k].Record() == old(files[k].Record())
    {
      var batch := files[start..end];
      for b := 0 to |batch|
        invariant forall k :: start <= k < start + b ==>
          TranslatedFrom(old(files[k].Record()), files[k].Record(), fromLanguage, toLanguage, agent)
        invariant forall k :: start + b <= k < end ==> files[k].Record() == old(files[k].Record())
      {
        error := TranslateFile(batch[b], fromLanguage, toLanguage, agent);
        if error.Some? {
          return error, start + b;
        }
      }
      return None, end;
    }

    /**
     * `translate_files`: translate the files one batch (of one file) at a
     * time, pausing `FilePauseSeconds` after each batch. The first file whose
     * translation fails stops the run: the files before it keep their
     * translations, it and the files after it are left as they were.
     */
    method TranslateFiles(fromLanguage: string, toLanguage: string, agent: ChunkAgent)
      returns (r: Result<seq<File>, string>, completed: nat, slept: nat)
      requires Valid()
      modifies set f | f in files
      ensures Valid()
      ensures completed <= |files| && slept == completed * FilePauseSeconds
      ensures forall k :: 0 <= k < completed ==>
        TranslatedFrom(old(files[k].Record()), files[k].Record(), fromLanguage, toLanguage, agent)
      ensures r.Ok? ==> completed == |files| && r.value == files
      ensures r.Err? ==> (&& completed < |files|
        && TranslateChunks(old(files[completed].chunks), fromLanguage, toLanguage, agent) == Err(r.error)
        && forall k :: completed <= k < |files| ==> files[k].Record() == old(files[k].Record()))
    {
      var n := |files|;
      completed, slept := 0, 0;
      var i := 0;
      while i < n
        invariant i <= n && completed == i && slept == completed * FilePauseSeconds
        invariant forall k :: 0 <= k < i ==>
          TranslatedFrom(old(files[k].Record()), files[k].Record(), fromLanguage, toLanguage, agent)
        invariant forall k :: i <= k < n ==> files[k].Record() == old(files[k].Record())
      {
        var error, failed := TranslateBatch(i, Min(i + TranslateBatchSize, n), fromLanguage, toLanguage, agent);
        if error.Some? {
          return Err(error.value), completed, slept;
        }
        completed := completed + 1;
        slept := slept + FilePauseSeconds;
        i := i + TranslateBatchSize;
      }
      r := Ok(files);
    }
  }
}
