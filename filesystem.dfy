/** The local filesystem as the setup code sees it: a map from the paths of
    regular files to their bytes. Which reads and writes fail is not
    decided by the model; it is fixed per file when the filesystem is
    created (`unreadable`, `unwritable`), so every operation is a
    deterministic function of the state. Every successful `Write` is logged
    in `writes`, which is how the model tells "rewritten with the same bytes"
    from "not written at all"; the files a clone adds are not logged. */
module Files {
  import opened Base
  import opened Text

  class FileSystem {
    var files: map<Path, seq<byte>>
    var writes: seq<Path>
    const unreadable: set<Path>
    const unwritable: set<Path>

    constructor (files: map<Path, seq<byte>>, unreadable: set<Path>, unwritable: set<Path>)
      ensures this.files == files && writes == []
      ensures this.unreadable == unreadable && this.unwritable == unwritable
    {
      this.files := files;
      this.writes := [];
      this.unreadable := unreadable;
      this.unwritable := unwritable;
    }

    /** `Path::exists` / `Path::is_file`. */
    predicate Exists(p: Path)
      reads this
    {
      p in files
    }

    /** `fs::read` / `File::open` followed by `read_to_end`. */
    function Read(p: Path): (r: Result<seq<byte>, IoError>)
      reads this
      ensures r.Ok? <==> p in files && p !in unreadable
      ensures r.Ok? ==> r.value == files[p]
    {
      if p !in files then Err(NotFound)
      else if p in unreadable then Err(PermissionDenied)
      else Ok(files[p])
    }

    /** `fs::read_to_string`: a read that also fails on bytes that are not
        UTF-8. The text is handed on as its (valid) UTF-8 bytes. */
    function ReadText(p: Path): (r: Result<seq<byte>, IoError>)
      reads this
      ensures r.Ok? <==> Read(p).Ok? && IsUtf8(files[p])
      ensures r.Ok? ==> r.value == files[p]
    {
      match Read(p)
      case Err(e) => Err(e)
      case Ok(b) => if IsUtf8(b) then Ok(b) else Err(InvalidData)
    }

    /** `fs::write` / `File::create` followed by `write_all`: creates or
        truncates the file and stores `data`, unless the file cannot be
        created. */
    method Write(p: Path, data: seq<byte>) returns (r: Result<(), IoError>)
      modifies this
      ensures r == if p in unwritable then Err(PermissionDenied) else Ok(())
      ensures files == if r.Ok? then old(files)[p := data] else old(files)
      ensures writes == if r.Ok? then old(writes) + [p] else old(writes)
    {
      if p in unwritable {
        r := Err(PermissionDenied);
      } else {
        files := files[p := data];
        writes := writes + [p];
        r := Ok(());
      }
    }
  }
}
