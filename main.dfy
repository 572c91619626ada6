/**
 * The single-file flow of `CrewDocsUpdaterFlow` (main.py): append the one
 * guide it works on, chunk it, translate its chunks ten at a time into
 * pt-BR, and write every file's joined translation under `tmp/<timestamp>/`.
 *
 * The flow framework runs the four steps in order; each step is a method
 * of the class. The repository fetch, the chunker and the language model
 * are parameters, and the clock's timestamp is an input of `SaveFile`.
 */
module DocsUpdaterFlow {
  import opened Wrappers
  import opened Types
  import opened Strings
  import opened Batching
  import opened Gathering

  /** The guide the flow translates. */
  const FirstFlowPath: string := "docs/en/guides/flows/first-flow.mdx"
  /** Chunks translated together in one batch. */
  const ChunkBatchSize: nat := 10
  /** The directory every output file is written under. */
  const OutputDir: string := "tmp"

  /** The agent's reply when asked to translate one chunk into pt-BR. */
  type TextAgent = string -> AgentResult

  /** Why a step of the flow raised. */
  datatype FlowError =
    | IndexError            // `files_outdated[0]` of an empty list
    | AgentFailure(error: string)

  /** The numbers one progress line of `translate_file` shows: batch `batch` (`first`-`last`) of `total`. */
  datatype Progress = Progress(batch: nat, first: nat, last: nat, total: nat)

  /** One file `save_file` writes: where, and what. */
  datatype SavedFile = SavedFile(outputPath: string, text: string)

  /** The agent's replies to `chunks`, in chunk order (the list of tasks handed to `gather`). */
  function Ask(agent: TextAgent, chunks: seq<string>): seq<AgentResult>
  {
    seq(|chunks|, k requires 0 <= k < |chunks| => agent(chunks[k]))
  }

  /**
   * The progress line for the batch starting at chunk `i` of `n`: the batch
   * number is between one and the number of batches, which is ceil(n / 10);
   * the range shown starts at the batch's first chunk (counted from one) and
   * ends at its last, never past the last chunk.
   */
  function BatchProgress(i: nat, n: nat): (p: Progress)
    requires i < n
    ensures 1 <= p.batch <= p.total
    ensures (p.total - 1) * ChunkBatchSize < n <= p.total * ChunkBatchSize
    ensures p.first == i + 1 && p.first <= p.last <= n
    ensures p.last - i == Min(ChunkBatchSize, n - i)
  {
    Progress(i / ChunkBatchSize + 1, i + 1, Min(i + ChunkBatchSize, n), (n - 1) / ChunkBatchSize + 1)
  }

  /**
   * The j-th progress line describes the j-th batch exactly: its number is
   * j + 1, its range is the positions (counted from one) of the chunks in
   * that batch, and its total is the number of batches.
   */
  lemma BatchProgressMatchesBatch(chunks: seq<string>, j: nat)
    requires j < |Batches(chunks, ChunkBatchSize)|
    ensures j * ChunkBatchSize < |chunks|
    ensures var p, b := BatchProgress(j * ChunkBatchSize, |chunks|), Batches(chunks, ChunkBatchSize)[j];
      && p.batch == j + 1
      && b == chunks[p.first - 1..p.last]
      && p.total == |Batches(chunks, ChunkBatchSize)|
  {
    BatchesShape(chunks, 0, ChunkBatchSize, j);
    BatchesCount(chunks, 0, ChunkBatchSize);
    var n, k := |chunks|, |Batches(chunks, ChunkBatchSize)|;
  }

  /**
   * `batches` are the first batches of `chunks`, in order, and `progress`
   * holds the progress line printed for each of them.
   */
  ghost predicate BatchesStarted(chunks: seq<string>, batches: seq<seq<string>>, progress: seq<Progress>)
  {
    && |batches| == |progress| <= |Batches(chunks, ChunkBatchSize)|
    && batches == Batches(chunks, ChunkBatchSize)[..|batches|]
    && forall j :: 0 <= j < |progress| ==>
         j * ChunkBatchSize < |chunks| && progress[j] == BatchProgress(j * ChunkBatchSize, |chunks|)
  }

  /**
   * `after` is `before` extended with the translations of the first `done`
   * chunks, in chunk order.
   */
  ghost predicate Extended(agent: TextAgent, chunks: seq<string>, before: seq<string>, after: seq<string>, done: nat)
  {
    && done <= |chunks|
    && |after| == |before| + done
    && after[..|before|] == before
    && forall k :: 0 <= k < done ==> agent(chunks[k]) == Output(after[|before| + k])
  }

  /** Starting the batch at `i` keeps the started batches and their progress lines in step with the slicing. */
  lemma StartBatch(chunks: seq<string>, batches: seq<seq<string>>, progress: seq<Progress>, i: nat)
    requires i < |chunks| && i == |batches| * ChunkBatchSize
    requires batches + BatchesFrom(chunks, i, ChunkBatchSize) == Batches(chunks, ChunkBatchSize)
    requires BatchesStarted(chunks, batches, progress)
    ensures var b := chunks[i..Min(i + ChunkBatchSize, |chunks|)];
      && (batches + [b]) + BatchesFrom(chunks, i + ChunkBatchSize, ChunkBatchSize) == Batches(chunks, ChunkBatchSize)
      && BatchesStarted(chunks, batches + [b], progress + [BatchProgress(i, |chunks|)])
  {
    var b := chunks[i..Min(i + ChunkBatchSize, |chunks|)];
    var all := Batches(chunks, ChunkBatchSize);
    assert BatchesFrom(chunks, i, ChunkBatchSize) == [b] + BatchesFrom(chunks, i + ChunkBatchSize, ChunkBatchSize);
    assert all == (batches + [b]) + BatchesFrom(chunks, i + ChunkBatchSize, ChunkBatchSize);
    assert all[..|batches| + 1] == batches + [b];
  }

  /**
   * Extending with the gathered replies of the batch `chunks[i..end]` extends
   * the translated prefix from `i` chunks to `end`.
   */
  lemma ExtendByBatch(agent: TextAgent, chunks: seq<string>, before: seq<string>, after: seq<string>, i: nat, end: nat, texts: seq<string>)
    requires i <= end <= |chunks|
    requires Extended(agent, chunks, before, after, i)
    requires Gather(Ask(agent, chunks[i..end])) == Ok(texts)
    ensures Extended(agent, chunks, before, after + texts, end)
  {
    var replies := Ask(agent, chunks[i..end]);
    GatherAligned(replies);
    var next := after + texts;
    assert next[..|before|] == after[..|before|];
    forall k | 0 <= k < end
      ensures agent(chunks[k]) == Output(next[|before| + k])
    {
      if k >= i {
        assert replies[k - i] == agent(chunks[k]);
      }
    }
  }

  /**
   * Translating in batches gives what translating all chunks in one gather
   * would: once every chunk is added to an empty list, the list is exactly
   * the gathered replies to all chunks, one per chunk and in chunk order.
   */
  lemma BatchedTranslationIsWholeGather(agent: TextAgent, chunks: seq<string>, after: seq<string>)
    requires Extended(agent, chunks, [], after, |chunks|)
    ensures |after| == |chunks|
    ensures Gather(Ask(agent, chunks)) == Ok(after)
  {
    var replies := Ask(agent, chunks);
    GatherAligned(replies);
    forall k | 0 <= k < |chunks|
      ensures replies[k] == Output(after[k])
    {
      var none: seq<string> := [];
      assert agent(chunks[k]) == Output(after[|none| + k]);
    }
    var r := Gather(replies);
    assert r.Ok?;
    assert |r.value| == |after|;
    forall k | 0 <= k < |chunks|
      ensures r.value[k] == after[k]
    {
      assert replies[k] == Output(r.value[k]);
    }
    assert r.value == after;
  }

  /** A batch whose gather raised holds a chunk the agent raised on, with that error. */
  lemma FailedBatchHasRaisingChunk(agent: TextAgent, batch: seq<string>, e: string)
    requires Gather(Ask(agent, batch)) == Err(e)
    ensures exists k :: 0 <= k < |batch| && agent(batch[k]) == Raised(e)
  {
    var replies := Ask(agent, batch);
    GatherAligned(replies);
    var k :| 0 <= k < |replies| && replies[k] == Raised(e) && forall j :: 0 <= j < k ==> replies[j].Output?;
    assert agent(batch[k]) == Raised(e);
  }

  /** `f"tmp/{timestamp}/{file.path}"`. */
  function OutputPath(timestamp: string, path: string): string
  {
    OutputDir + "/" + timestamp + "/" + path
  }

  /**
   * The output path lies in the directory `tmp/<timestamp>/` and what follows
   * that directory is the file's path unchanged, so two files of one run are
   * written to the same place only if their paths are equal.
   */
  lemma OutputPathInjective(timestamp: string, path: string, other: string)
    ensures var r, dir := OutputPath(timestamp, path), "tmp/" + timestamp + "/";
      StartsWith(r, dir) && r[|dir|..] == path
    ensures OutputPath(timestamp, path) == OutputPath(timestamp, other) <==> path == other
  {
    var dir := "tmp/" + timestamp + "/";
    assert OutputPath(timestamp, path) == dir + path;
    assert OutputPath(timestamp, other) == dir + other;
    if dir + path == dir + other {
      assert path == (dir + path)[|dir|..];
      assert other == (dir + other)[|dir|..];
    }
  }

  /**
   * The loop of `translate_file` over one file: translate its chunks in
   * batches of ten, printing one progress line per batch and extending the
   * file's translated chunks with each batch's replies in chunk order.
   * `batches` are the batches started; when the agent raises in one of them
   * its error is returned and only the batches before it have been added.
   * `done` is the number of chunks whose translations were added.
   */
  method TranslateInBatches(file: File, agent: TextAgent)
    returns (error: Option<string>, batches: seq<seq<string>>, progress: seq<Progress>, done: nat)
    modifies file
    ensures var chunks, before, after := old(file.chunks), old(file.Record()), file.Record();
      && after == before.(translatedChunks := after.translatedChunks)
      && BatchesStarted(chunks, batches, progress)
      && Extended(agent, chunks, before.translatedChunks, after.translatedChunks, done)
      && (error.None? ==> done == |chunks| && batches == Batches(chunks, ChunkBatchSize))
      && (error.Some? ==> (&& |batches| > 0
            && done == (|batches| - 1) * ChunkBatchSize
            && Gather(Ask(agent, batches[|batches| - 1])) == Err(error.value)))
  {
    error, batches, progress, done := None, [], [], 0;
    var chunks := file.chunks;
    var start := file.translatedChunks;
    var n := |chunks|;
    var i := 0;
    while i < n
      invariant i == |batches| * ChunkBatchSize && done == Min(i, n)
      invariant batches + BatchesFrom(chunks, i, ChunkBatchSize) == Batches(chunks, ChunkBatchSize)
      invariant BatchesStarted(chunks, batches, progress)
      invariant file.Record() == old(file.Record()).(translatedChunks := file.translatedChunks)
      invariant Extended(agent, chunks, start, file.translatedChunks, done)
    {
      var end := Min(i + ChunkBatchSize, n);
      var batch := chunks[i..end];
      StartBatch(chunks, batches, progress, i);
      progress := progress + [BatchProgress(i, n)];
      batches := batches + [batch];
      var gathered := Gather(Ask(agent, batch));
      if gathered.Err? {
        return Some(gathered.error), batches, progress, done;
      }
      ExtendByBatch(agent, chunks, start, file.translatedChunks, i, end, gathered.value);
      file.translatedChunks := file.translatedChunks + gathered.value;
      done := end;
      i := i + ChunkBatchSize;
    }
    assert BatchesFrom(chunks, i, ChunkBatchSize) == [];
  }

  /**
   * The flow's state (`CrewDocsUpdaterState`) together with the steps that
   * change it.
   */
  class CrewDocsUpdaterFlow {
    const repo: string
    const primaryLanguage: string
    const secondaryLanguages: seq<string>
    /** `state.files_outdated`. */
    var filesOutdated: seq<File>

    /**
     * No file is listed twice, and every file has content: `File.content`
     * is a `str`, and the flow only creates files with fetched content.
     */
    ghost predicate Valid()
      reads this, filesOutdated
    {
      && Distinct(filesOutdated)
      && forall k :: 0 <= k < |filesOutdated| ==> filesOutdated[k].content.Some?
    }

    /** The state's defaults. */
    constructor ()
      ensures Valid()
      ensures repo == "crewAIInc/crewAI" && primaryLanguage == "en" && secondaryLanguages == ["pt-BR"]
      ensures filesOutdated == []
    {
      repo := "crewAIInc/crewAI";
      primaryLanguage := "en";
      secondaryLanguages := ["pt-BR"];
      filesOutdated := [];
    }

    /**
     * `get_file_content`: append one new file for the first-flow guide with
     * its fetched content; the files already listed stay as they are.
     */
    method GetFileContent(fetch: string -> string)
      requires Valid()
      modifies this
      ensures Valid()
      ensures |filesOutdated| == |old(filesOutdated)| + 1
      ensures filesOutdated[..|old(filesOutdated)|] == old(filesOutdated)
      ensures var added := filesOutdated[|old(filesOutdated)|];
        && fresh(added)
        && added.Record() == FileRecord(FirstFlowPath, Some(fetch(FirstFlowPath)), [], [], None, None)
    {
      var file := new File(FirstFlowPath, Some(fetch(FirstFlowPath)));
      filesOutdated := filesOutdated + [file];
    }

    /**
     * `chunk_file`: set the first file's chunks to the chunker's split of
     * its content. No other field and no other file changes; with no file
     * listed the index raises.
     */
    method ChunkFile(chunker: string -> seq<string>) returns (error: Option<FlowError>)
      requires Valid()
      modifies filesOutdated
      ensures Valid() && filesOutdated == old(filesOutdated)
      ensures error.Some? <==> |filesOutdated| == 0
      ensures error.Some? ==> error.value == IndexError
      ensures |filesOutdated| > 0 ==>
        filesOutdated[0].Record() == old(filesOutdated[0].Record()).(chunks := chunker(old(filesOutdated[0].content).value))
      ensures forall k :: 1 <= k < |filesOutdated| ==> filesOutdated[k].Record() == old(filesOutdated[k].Record())
    {
      if |filesOutdated| == 0 {
        return Some(IndexError);
      }
      var file := filesOutdated[0];
      file.chunks := chunker(file.content.value);
      return None;
    }

    /**
     * `translate_file`: translate the first file's chunks in batches of ten,
     * printing one progress line per batch and extending its translated
     * chunks with each batch's replies in chunk order. `batches` are the
     * batches started; when the agent raises in one of them the error is
     * re-raised and only the batches before it have been added. `done` is
     * the number of chunks whose translations were added.
     */
    method TranslateFile(agent: TextAgent)
      returns (error: Option<FlowError>, batches: seq<seq<string>>, progress: seq<Progress>, done: nat)
      requires Valid()
      modifies filesOutdated
      ensures Valid() && filesOutdated == old(filesOutdated)
      ensures |filesOutdated| == 0 ==> error == Some(IndexError) && batches == [] && progress == [] && done == 0
      ensures forall k :: 1 <= k < |filesOutdated| ==> filesOutdated[k].Record() == old(filesOutdated[k].Record())
      ensures |filesOutdated| > 0 ==>
        var chunks, before, after := old(filesOutdated[0].chunks), old(filesOutdated[0].Record()), filesOutdated[0].Record();
        && after == before.(translatedChunks := after.translatedChunks)
        && BatchesStarted(chunks, batches, progress)
        && Extended(agent, chunks, before.translatedChunks, after.translatedChunks, done)
        && (error.None? ==> done == |chunks| && batches == Batches(chunks, ChunkBatchSize))
        && (error.Some? ==> (&& error.value.AgentFailure? && |batches| > 0
              && done == (|batches| - 1) * ChunkBatchSize
              && Gather(Ask(agent, batches[|batches| - 1])) == Err(error.value.error)))
    {
      if |filesOutdated| == 0 {
        return Some(IndexError), [], [], 0;
      }
      var failure: Option<string>;
      failure, batches, progress, done := TranslateInBatches(filesOutdated[0], agent);
      error := if failure.Some? then Some(AgentFailure(failure.value)) else None;
    }

    /**
     * `save_file`: for every file, in list order, the file written at
     * `tmp/<timestamp>/<path>` holding its translated chunks joined with a
     * blank line.
     */
    method SaveFile(timestamp: string) returns (written: seq<SavedFile>)
      ensures |written| == |filesOutdated|
      ensures forall k :: 0 <= k < |written| ==>
        written[k] == SavedFile(OutputPath(timestamp, filesOutdated[k].path), Join(filesOutdated[k].translatedChunks, ChunkSeparator))
    {
      written := [];
      for k := 0 to |filesOutdated|
        invariant |written| == k
        invariant forall j :: 0 <= j < k ==>
          written[j] == SavedFile(OutputPath(timestamp, filesOutdated[j].path), Join(filesOutdated[j].translatedChunks, ChunkSeparator))
      {
        var file := filesOutdated[k];
        var outputPath := OutputDir + "/" + timestamp + "/" + file.path;
        written := written + [SavedFile(outputPath, Join(file.translatedChunks, ChunkSeparator))];
      }
    }
  }
}
