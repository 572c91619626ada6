/**
 * The documentation-file filter of the repository client
 * (`GithubClient.get_files`). Reading the branch and its recursive tree is
 * I/O; the model takes the tree's paths, in tree order, as its input.
 */
module GithubClient {
  import opened Wrappers
  import opened Types
  import opened Strings

  /** A tree path is listed exactly when it lies under `docsDir/` and has a `.mdx` or `.md` extension. */
  predicate IsDocFile(path: string, docsDir: string) {
    StartsWith(path, docsDir + "/") && (EndsWith(path, ".mdx") || EndsWith(path, ".md"))
  }

  /** The paths the list comprehension keeps, in tree order. */
  function DocFilePaths(tree: seq<string>, docsDir: string): seq<string>
  {
    if |tree| == 0 then []
    else
      var last := tree[|tree| - 1];
      DocFilePaths(tree[..|tree| - 1], docsDir) + (if IsDocFile(last, docsDir) then [last] else [])
  }

  /** The positions in `tree` of the paths the filter keeps, in increasing order. */
  function DocFileIndices(tree: seq<string>, docsDir: string): seq<nat>
  {
    if |tree| == 0 then []
    else
      var n := |tree| - 1;
      DocFileIndices(tree[..n], docsDir) + (if IsDocFile(tree[n], docsDir) then [n] else [])
  }

  /**
   * The j-th listed path is the tree's path at the j-th kept position, and
   * the kept positions strictly increase: tree order is kept and nothing is
   * repeated.
   */
  lemma {:induction false} DocFileIndicesAligned(tree: seq<string>, docsDir: string)
    ensures var r, ix := DocFilePaths(tree, docsDir), DocFileIndices(tree, docsDir);
      && |r| == |ix|
      && (forall j :: 0 <= j < |ix| ==> ix[j] < |tree| && r[j] == tree[ix[j]])
      && (forall j, j' :: 0 <= j < j' < |ix| ==> ix[j] < ix[j'])
  {
    if |tree| > 0 {
      var n := |tree| - 1;
      var pre := tree[..n];
      DocFileIndicesAligned(pre, docsDir);
      var r0, ix0 := DocFilePaths(pre, docsDir), DocFileIndices(pre, docsDir);
      assert forall k :: 0 <= k < n ==> pre[k] == tree[k];
      if IsDocFile(tree[n], docsDir) {
        var r, ix := DocFilePaths(tree, docsDir), DocFileIndices(tree, docsDir);
        assert r == r0 + [tree[n]] && ix == ix0 + [n];
        assert forall j :: 0 <= j < |ix0| ==> ix[j] == ix0[j] && r[j] == r0[j];
      }
    }
  }

  /** A tree position is kept if and only if its path matches. */
  lemma {:induction false} DocFileIndicesExact(tree: seq<string>, docsDir: string)
    ensures forall k :: 0 <= k < |tree| ==> (k in DocFileIndices(tree, docsDir) <==> IsDocFile(tree[k], docsDir))
  {
    if |tree| > 0 {
      var n := |tree| - 1;
      var pre := tree[..n];
      DocFileIndicesExact(pre, docsDir);
      DocFileIndicesAligned(pre, docsDir);
      var ix0 := DocFileIndices(pre, docsDir);
      assert forall k :: 0 <= k < n ==> pre[k] == tree[k];
      assert n !in ix0;
      if IsDocFile(tree[n], docsDir) {
        assert DocFileIndices(tree, docsDir) == ix0 + [n];
      } else {
        assert DocFileIndices(tree, docsDir) == ix0;
      }
    }
  }

  /**
   * The listing is exactly the tree restricted to the matching paths: the
   * j-th listed path is the tree's path at the j-th matching position, the
   * positions strictly increase (tree order is kept, nothing is repeated),
   * and a position is among them if and only if its path matches.
   */
  lemma DocFilePathsAreMatchingTreePaths(tree: seq<string>, docsDir: string)
    ensures var r, ix := DocFilePaths(tree, docsDir), DocFileIndices(tree, docsDir);
      && |r| == |ix|
      && (forall j :: 0 <= j < |ix| ==> ix[j] < |tree| && r[j] == tree[ix[j]])
      && (forall j, j' :: 0 <= j < j' < |ix| ==> ix[j] < ix[j'])
      && (forall k :: 0 <= k < |tree| ==> (k in ix <==> IsDocFile(tree[k], docsDir)))
  {
    DocFileIndicesAligned(tree, docsDir);
    DocFileIndicesExact(tree, docsDir);
  }

  /** Every listed path starts with `docsDir + "/"` and ends with `.mdx` or `.md`. */
  lemma DocFilePathsSound(tree: seq<string>, docsDir: string)
    ensures forall p :: p in DocFilePaths(tree, docsDir) ==>
      StartsWith(p, docsDir + "/") && (EndsWith(p, ".mdx") || EndsWith(p, ".md"))
  {
    DocFilePathsAreMatchingTreePaths(tree, docsDir);
    var r, ix := DocFilePaths(tree, docsDir), DocFileIndices(tree, docsDir);
    forall p | p in r
      ensures IsDocFile(p, docsDir)
    {
      var j :| 0 <= j < |r| && r[j] == p;
      assert ix[j] in ix;
    }
  }

  /** Every tree path under `docsDir/` with a documentation extension is listed. */
  lemma DocFilePathsComplete(tree: seq<string>, docsDir: string)
    ensures forall k :: 0 <= k < |tree| && IsDocFile(tree[k], docsDir) ==> tree[k] in DocFilePaths(tree, docsDir)
  {
    DocFilePathsAreMatchingTreePaths(tree, docsDir);
    var r, ix := DocFilePaths(tree, docsDir), DocFileIndices(tree, docsDir);
    forall k | 0 <= k < |tree| && IsDocFile(tree[k], docsDir)
      ensures tree[k] in r
    {
      var j :| 0 <= j < |ix| && ix[j] == k;
      assert r[j] == tree[k];
    }
  }

  /**
   * The trailing "/" in the prefix keeps out the directory entry itself and a
   * sibling directory whose name merely extends `docsDir`.
   */
  lemma DirectoryAndSiblingExcluded(docsDir: string)
    ensures !IsDocFile(docsDir, docsDir)
    ensures !IsDocFile(docsDir + "-US/x.md", docsDir)
  {
    var sibling := docsDir + "-US/x.md";
    assert sibling[|docsDir|] == '-';
    assert (docsDir + "/")[|docsDir|] == '/';
  }

  /**
   * `get_files(docs_dir)`: a fresh `File` per listed path, in listing order,
   * with no content and empty chunk lists.
   */
  method GetFiles(tree: seq<string>, docsDir: string) returns (files: seq<File>)
    ensures |files| == |DocFilePaths(tree, docsDir)|
    ensures forall k :: 0 <= k < |files| ==>
      files[k].Record() == FileRecord(DocFilePaths(tree, docsDir)[k], None, [], [], None, None)
    ensures forall k :: 0 <= k < |files| ==> fresh(files[k])
    ensures Distinct(files)
  {
    files := [];
    for t := 0 to |tree|
      invariant |files| == |DocFilePaths(tree[..t], docsDir)|
      invariant forall k :: 0 <= k < |files| ==>
        files[k].Record() == FileRecord(DocFilePaths(tree[..t], docsDir)[k], None, [], [], None, None)
      invariant forall k :: 0 <= k < |files| ==> fresh(files[k])
      invariant Distinct(files)
    {
      assert tree[..t + 1][..t] == tree[..t];
      var path := tree[t];
      if IsDocFile(path, docsDir) {
        var file := new File(path, None);
        files := files + [file];
      }
    }
    assert tree[..|tree|] == tree;
  }
}
