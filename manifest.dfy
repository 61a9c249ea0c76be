/** `update_cargo_toml` of `src/utils.rs`: the surgical edit of one field,
    `package.name`, of a `Cargo.toml` document. The document is modelled by
    its tables and key/value pairs; parsing and printing it are supplied by
    the caller (`TomlCodec`). */
module Manifest {
  import opened Base
  import opened Text
  import opened Files

  /** A TOML value: a string, or any other value kept as opaque text. */
  datatype Value = Str(s: string) | Other(text: string)

  /** A TOML item: a value, a table (standard or inline), or an array of
      tables (`[[name]]`). */
  datatype Item =
    | Value(v: Value)
    | Table(entries: map<string, Item>)
    | ArrayOfTables(tables: seq<map<string, Item>>)

  /** A document is its root table. */
  type Document = map<string, Item>

  /** The TOML parser and printer, supplied by the caller: `parse` yields
      `None` on malformed input. */
  datatype TomlCodec = TomlCodec(parse: seq<byte> -> Option<Document>, serialize: Document -> seq<byte>)

  datatype ManifestError = Io(io: IoError) | Parse

  /** The item at `key` of the top-level table `table`, as `get_mut` on
      the document and then on the table finds it: `None` when the table is
      absent, is not table-like, or lacks the key. */
  function Lookup(doc: Document, table: string, key: string): Option<Item> {
    if table in doc && doc[table].Table? && key in doc[table].entries
    then Some(doc[table].entries[key])
    else None
  }

  /** The edit. `get_mut("package")` on the root table finds an existing
      `package` item; `get_mut("name")` on a table-like item then yields its
      `name` entry, inserting an empty one when it is missing (toml_edit's
      `index_mut` for string keys), and that entry becomes the string
      `name`. So the name is set whenever `package` is a table, and nothing
      happens when `package` is absent or not table-like. No table is ever
      added, and no key other than `package.name`. */
  function SetPackageName(doc: Document, name: string): (r: Document)
    ensures r.Keys == doc.Keys
    ensures forall t :: t in doc && t != "package" ==> r[t] == doc[t]
    ensures "package" in doc ==> r["package"].Table? == doc["package"].Table?
    ensures "package" in doc && doc["package"].Table? ==>
              r["package"].entries.Keys == doc["package"].entries.Keys + {"name"}
    ensures Lookup(r, "package", "name") ==
              if "package" in doc && doc["package"].Table? then Some(Value(Str(name))) else None
    ensures forall t, k :: (t, k) != ("package", "name") ==> Lookup(r, t, k) == Lookup(doc, t, k)
  {
    if "package" in doc && doc["package"].Table? then
      doc["package" := Table(doc["package"].entries["name" := Value(Str(name))])]
    else
      doc
  }

  /** Setting the name twice is setting it once. */
  lemma SetPackageNameIdempotent(doc: Document, name: string)
    ensures SetPackageName(SetPackageName(doc, name), name) == SetPackageName(doc, name)
  {
    var once := SetPackageName(doc, name);
    if "package" in doc && doc["package"].Table? {
      assert once["package"].entries["name" := Value(Str(name))] == once["package"].entries;
      assert once["package" := Table(once["package"].entries)] == once;
    }
  }

  /** A document whose package name already equals `name`, or that has no
      table-like `package`, is left as it is. */
  lemma SetPackageNameNoChange(doc: Document, name: string)
    requires "package" in doc && doc["package"].Table? ==> Lookup(doc, "package", "name") == Some(Value(Str(name)))
    ensures SetPackageName(doc, name) == doc
  {
    if "package" in doc && doc["package"].Table? {
      assert doc["package"].entries["name" := Value(Str(name))] == doc["package"].entries;
      assert doc["package" := Table(doc["package"].entries)] == doc;
    }
  }

  function CargoTomlPath(root: Path): Path {
    Join(root, "Cargo.toml")
  }

  /** `update_cargo_toml` succeeds on the tree `files`: `Cargo.toml` under
      `root` exists, is readable, is UTF-8 text, parses, and can be written. */
  predicate CargoTomlUpdatable(fs: FileSystem, files: map<Path, seq<byte>>, root: Path, toml: TomlCodec) {
    var p := CargoTomlPath(root);
    p in files && p !in fs.unreadable && IsUtf8(files[p]) && toml.parse(files[p]).Some? && p !in fs.unwritable
  }

  /** The tree after `update_cargo_toml`: when it succeeds, `Cargo.toml` holds
      the printed, edited document; otherwise nothing has changed. */
  function AfterCargoToml(fs: FileSystem, files: map<Path, seq<byte>>, root: Path, name: string,
                          toml: TomlCodec): map<Path, seq<byte>>
  {
    var p := CargoTomlPath(root);
    if CargoTomlUpdatable(fs, files, root, toml)
    then files[p := toml.serialize(SetPackageName(toml.parse(files[p]).value, name))]
    else files
  }

  /** `update_cargo_toml`: read `Cargo.toml` under `root` as text, parse
      it, set the package name and write the printed document back. It
      writes even when it sets no name. Any read,
      parse or write failure is returned. */
  method UpdateCargoToml(fs: FileSystem, root: Path, name: string, toml: TomlCodec)
    returns (r: Result<(), ManifestError>)
    modifies fs
    ensures var p := CargoTomlPath(root);
            old(fs.ReadText(p)).Err? ==>
              r == Err(Io(old(fs.ReadText(p)).error)) && fs.files == old(fs.files) && fs.writes == old(fs.writes)
    ensures var p := CargoTomlPath(root);
            old(fs.ReadText(p)).Ok? && toml.parse(old(fs.files)[p]).None? ==>
              r == Err(Parse) && fs.files == old(fs.files) && fs.writes == old(fs.writes)
    ensures var p := CargoTomlPath(root);
            old(fs.ReadText(p)).Ok? && toml.parse(old(fs.files)[p]).Some? ==>
              (r.Ok? <==> p !in fs.unwritable)
              && (r.Err? ==> r == Err(Io(PermissionDenied)) && fs.files == old(fs.files) && fs.writes == old(fs.writes))
              && (r.Ok? ==>
                    fs.files == old(fs.files)[p := toml.serialize(SetPackageName(toml.parse(old(fs.files)[p]).value, name))]
                    && fs.writes == old(fs.writes) + [p])
    ensures r.Ok? <==> CargoTomlUpdatable(fs, old(fs.files), root, toml)
    ensures fs.files == AfterCargoToml(fs, old(fs.files), root, name, toml)
  {
    var path := CargoTomlPath(root);
    var content := fs.ReadText(path);
    if content.Err? {
      return Err(Io(content.error));
    }
    var parsed := toml.parse(content.value);
    if parsed.None? {
      return Err(Parse);
    }
    var doc := SetPackageName(parsed.value, name);
    var written := fs.Write(path, toml.serialize(doc));
    if written.Err? {
      return Err(Io(written.error));
    }
    r := Ok(());
  }
}
