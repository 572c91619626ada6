/**
 * The program's records (types.py). A `File` is created once and then
 * updated in place by every stage of the pipeline, so it is a class; a
 * `FileRecord` is the value of all its fields at one moment.
 */
module Types {
  import opened Wrappers

  /** What the language model hands back for one call: its `.raw` text, or the exception it raised. */
  datatype AgentResult = Output(raw: string) | Raised(error: string)

  /** A snapshot of every field of a `File`. */
  datatype FileRecord = FileRecord(
    path: string,
    content: Option<string>,
    chunks: seq<string>,
    translatedChunks: seq<string>,
    translationPath: Option<string>,
    translationContent: Option<string>)

  /**
   * One documentation file. `translationPath` and `translationContent` are
   * the attributes the translation service attaches to it; `content` is
   * optional because the repository listing creates files without content.
   */
  class File {
    var path: string
    var content: Option<string>
    var chunks: seq<string>
    var translatedChunks: seq<string>
    var translationPath: Option<string>
    var translationContent: Option<string>

    /** `File(path=..., content=...)`: the list fields start empty, the extra attributes unset. */
    constructor (path: string, content: Option<string>)
      ensures Record() == FileRecord(path, content, [], [], None, None)
    {
      this.path := path;
      this.content := content;
      chunks := [];
      translatedChunks := [];
      translationPath := None;
      translationContent := None;
    }

    function Record(): FileRecord
      reads this
    {
      FileRecord(path, content, chunks, translatedChunks, translationPath, translationContent)
    }
  }

  /** No `File` object occurs twice in `files`. */
  ghost predicate Distinct(files: seq<File>) {
    forall i, j :: 0 <= i < j < |files| ==> files[i] != files[j]
  }
}
