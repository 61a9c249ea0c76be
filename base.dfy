/** Shared vocabulary: bytes, paths, and the Option/Result wrappers the
    Rust code expresses with `Option<T>`, `Result<T, E>` and `?`. */
module Base {

  /** A `u8`. */
  newtype byte = x: int | 0 <= x < 256

  datatype Option<+T> = None | Some(value: T)

  datatype Result<+T, +E> = Ok(value: T) | Err(error: E)

  /** A filesystem path as its list of components. `Join` adds one
      component, which is what `Path::join` does for a relative name without
      separators; absolute names and names with separators are not modelled. */
  type Path = seq<string>

  function Join(p: Path, name: string): (r: Path)
    ensures |r| == |p| + 1 && r[..|p|] == p && r[|p|] == name
  {
    p + [name]
  }

  /** `p` lies in the directory tree rooted at `root` (the root itself included). */
  predicate Under(root: Path, p: Path) {
    root <= p
  }

  /** The I/O errors the model distinguishes. */
  datatype IoError = NotFound | PermissionDenied | InvalidData
}
