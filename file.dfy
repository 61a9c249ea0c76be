/** The module-name rewriter of `src/file.rs`: a byte-level literal replace
    applied to every regular file of the cloned tree. */
module RewriteTree {
  import opened Base
  import opened Replacing
  import opened Files

  /** The scan loop of `update_file_content`: one pass over `content` that
      copies it into a fresh buffer, swapping each occurrence of `pat` that
      starts at the current index for `rep`. The result is the greedy
      replacement, and `updated` reports whether any occurrence existed. An
      empty `pat` would match at every index without advancing it, so the
      loop would never end. */
  method ScanReplace(content: seq<byte>, pat: seq<byte>, rep: seq<byte>)
    returns (updated: bool, newContent: seq<byte>)
    requires |pat| > 0
    ensures newContent == Replace(content, pat, rep)
    ensures updated <==> Occurs(content, pat)
  {
    updated := false;
    newContent := [];
    var i := 0;
    while i < |content|
      invariant 0 <= i <= |content|
      invariant newContent + Replace(content[i..], pat, rep) == Replace(content, pat, rep)
      invariant MatchCount(content[i..], pat) <= MatchCount(content, pat)
      invariant updated <==> MatchCount(content[i..], pat) < MatchCount(content, pat)
    {
      if pat <= content[i..] {
        assert content[i..][|pat|..] == content[i + |pat|..];
        newContent := newContent + rep;
        i := i + |pat|;
        updated := true;
      } else {
        assert content[i..][1..] == content[i + 1..];
        newContent := newContent + [content[i]];
        i := i + 1;
      }
    }
    MatchCountPositiveIffOccurs(content, pat);
  }

  /** The file at `p` is rewritten by `update_file_content`: it can be read,
      the pattern occurs in its contents, and it can be written. */
  predicate Rewrites(fs: FileSystem, p: Path, content: seq<byte>, pat: seq<byte>)
    requires |pat| > 0
  {
    p !in fs.unreadable && p !in fs.unwritable && MatchCount(content, pat) > 0
  }

  /** `update_file_content`: read the file, scan it, and write the new bytes
      back only if something matched. Read and write failures are returned. */
  method UpdateFileContent(fs: FileSystem, p: Path, pat: seq<byte>, rep: seq<byte>)
    returns (r: Result<bool, IoError>)
    requires |pat| > 0
    modifies fs
    ensures r.Ok? <==> p in old(fs.files) && p !in fs.unreadable
                       && (Occurs(old(fs.files)[p], pat) ==> p !in fs.unwritable)
    ensures r.Ok? ==> r.value == Occurs(old(fs.files)[p], pat)
    ensures p in old(fs.files) && Rewrites(fs, p, old(fs.files)[p], pat) ==>
              fs.files == old(fs.files)[p := Replace(old(fs.files)[p], pat, rep)]
              && fs.writes == old(fs.writes) + [p]
    ensures !(p in old(fs.files) && Rewrites(fs, p, old(fs.files)[p], pat)) ==>
              fs.files == old(fs.files) && fs.writes == old(fs.writes)
  {
    var read := fs.Read(p);
    if read.Ok? {
      MatchCountPositiveIffOccurs(read.value, pat);
    }
    if read.Err? {
      return Err(read.error);
    }
    var updated, newContent := ScanReplace(read.value, pat, rep);
    if updated {
      var written := fs.Write(p, newContent);
      if written.Err? {
        return Err(written.error);
      }
    }
    r := Ok(updated);
  }

  /** What the walk has achieved once every file under `root` except those
      in `pending` has been visited: visited files that were rewritten hold
      the replaced bytes and were logged once as written after `writes0`;
      every other file holds its original bytes. */
  ghost predicate WalkedExcept(fs: FileSystem, root: Path, pat: seq<byte>, rep: seq<byte>,
                               files0: map<Path, seq<byte>>, writes0: seq<Path>,
                               files: map<Path, seq<byte>>, writes: seq<Path>, pending: set<Path>)
    requires |pat| > 0
  {
    && (forall p :: p in pending ==> p in files0 && Under(root, p))
    && files.Keys == files0.Keys
    && (forall p :: p in files0 ==>
          files[p] == if Under(root, p) && p !in pending && Rewrites(fs, p, files0[p], pat)
                      then Replace(files0[p], pat, rep)
                      else files0[p])
    && |writes0| <= |writes| && writes[..|writes0|] == writes0
    && (forall q :: q in writes[|writes0|..] <==>
          q in files0 && Under(root, q) && q !in pending && Rewrites(fs, q, files0[q], pat))
  }

  /** Visiting one pending file moves it from `pending` to the visited part. */
  lemma WalkStep(fs: FileSystem, root: Path, pat: seq<byte>, rep: seq<byte>,
                 files0: map<Path, seq<byte>>, writes0: seq<Path>,
                 files: map<Path, seq<byte>>, writes: seq<Path>, pending: set<Path>, p: Path,
                 files': map<Path, seq<byte>>, writes': seq<Path>)
    requires |pat| > 0
    requires WalkedExcept(fs, root, pat, rep, files0, writes0, files, writes, pending)
    requires p in pending
    requires Rewrites(fs, p, files[p], pat) ==>
               files' == files[p := Replace(files[p], pat, rep)] && writes' == writes + [p]
    requires !Rewrites(fs, p, files[p], pat) ==> files' == files && writes' == writes
    ensures WalkedExcept(fs, root, pat, rep, files0, writes0, files', writes', pending - {p})
  {
    assert files[p] == files0[p];
    if Rewrites(fs, p, files[p], pat) {
      assert writes'[|writes0|..] == writes[|writes0|..] + [p];
    }
  }

  /** The tree after `update_module_name` has visited every file of `files`
      under `root`. */
  ghost function Renamed(fs: FileSystem, files: map<Path, seq<byte>>, root: Path,
                         pat: seq<byte>, rep: seq<byte>): map<Path, seq<byte>>
    requires |pat| > 0
  {
    map p | p in files :: if Under(root, p) && Rewrites(fs, p, files[p], pat) then Replace(files[p], pat, rep) else files[p]
  }

  /** `update_module_name`: apply `update_file_content` to every regular
      file under `root`, in whatever order the walk yields them. Errors of
      single files are reported and skipped, and the result is always `Ok`.
      Afterwards each file under `root` that could be read and written and
      contained `pat` holds the replaced bytes and is among the new writes;
      every other file keeps its bytes and is not among them. */
  method UpdateModuleName(fs: FileSystem, root: Path, pat: seq<byte>, rep: seq<byte>)
    returns (r: Result<(), IoError>)
    requires |pat| > 0
    modifies fs
    ensures r.Ok?
    ensures fs.files.Keys == old(fs.files).Keys
    ensures forall p :: p in old(fs.files) ==>
              fs.files[p] == if Under(root, p) && Rewrites(fs, p, old(fs.files)[p], pat)
                             then Replace(old(fs.files)[p], pat, rep)
                             else old(fs.files)[p]
    ensures fs.files == Renamed(fs, old(fs.files), root, pat, rep)
    ensures |old(fs.writes)| <= |fs.writes| && fs.writes[..|old(fs.writes)|] == old(fs.writes)
    ensures forall q :: q in fs.writes[|old(fs.writes)|..] <==>
              q in old(fs.files) && Under(root, q) && Rewrites(fs, q, old(fs.files)[q], pat)
  {
    var todo := set p | p in fs.files && Under(root, p);
    while todo != {}
      invariant WalkedExcept(fs, root, pat, rep, old(fs.files), old(fs.writes), fs.files, fs.writes, todo)
      decreases todo
    {
      var p :| p in todo;
      ghost var files, writes := fs.files, fs.writes;
      var _ := UpdateFileContent(fs, p, pat, rep);
      WalkStep(fs, root, pat, rep, old(fs.files), old(fs.writes), files, writes, todo, p, fs.files, fs.writes);
      todo := todo - {p};
    }
    r := Ok(());
  }
}
