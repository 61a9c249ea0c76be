/** `update_database_config` of `src/utils.rs`: swap the database wiring of
    the Go template for the chosen database, in `cmd/main.go` by literal
    replacement of two known blocks, and in the user use-case file by a
    regular-expression replacement. */
module DatabaseConfig {
  import opened Base
  import opened Text
  import opened Replacing
  import opened Files

  datatype Database = MongoDB | PostgreSQL

  /** The database string is compared with "mongodb" exactly; every other
      string means PostgreSQL. */
  function SelectDatabase(database: string): (db: Database)
    ensures db == MongoDB <==> database == "mongodb"
    ensures db == PostgreSQL <==> database != "mongodb"
  {
    if database == "mongodb" then MongoDB else PostgreSQL
  }

  const MongoInit: string :=
    "userRepo, err := config.InitializeRepositoriesMongo()\n"
    + "    if err != nil {\n"
    + "        log.Fatal(err)\n"
    + "    }\n"
    + "\n"
    + "    // Initialize user usecase with MongoDB repository\n"
    + "    userUsecase := config.InitializeUsecasesMongo(userRepo)"

  const PostgresInit: string :=
    "userRepo, err := config.InitializeRepositoriesPostgres()\n"
    + "    if err != nil {\n"
    + "        log.Fatal(err)\n"
    + "    }\n"
    + "\n"
    + "    // Initialize user usecase with PostgreSQL repository\n"
    + "    userUsecase := config.InitializeUsecasesPostgres(userRepo)"

  const MongoUserCode: string :=
    "type UserUsecase struct {\n"
    + "\tuserRepo mongodb.Interface\n"
    + "}\n"
    + "\n"
    + "// NewUserUsecase creates a new UserUsecase instance.\n"
    + "// It takes a mongodb.Interface as a parameter to handle database operations.\n"
    + "func NewUserUsecase(repo mongodb.Interface) *UserUsecase {\n"
    + "\treturn &UserUsecase{userRepo: repo}\n"
    + "}"

  const PostgresUserCode: string :=
    "type UserUsecase struct {\n"
    + "\tuserRepo postgres.Interface\n"
    + "}\n"
    + "\n"
    + "// NewUserUsecase creates a new UserUsecase instance.\n"
    + "// It takes a postgres.Interface as a parameter to handle database operations.\n"
    + "func NewUserUsecase(repo postgres.Interface) *UserUsecase {\n"
    + "\treturn &UserUsecase{userRepo: repo}\n"
    + "}"

  /** The bytes of the initialisation block for `db` in `main.go`. */
  function InitBlock(db: Database): (b: seq<byte>)
    ensures |b| > 0
  {
    Utf8(if db == MongoDB then MongoInit else PostgresInit)
  }

  /** The bytes of the block for the database not chosen. */
  function OtherInitBlock(db: Database): (b: seq<byte>)
    ensures |b| > 0
  {
    InitBlock(if db == MongoDB then PostgreSQL else MongoDB)
  }

  /** The bytes of the `UserUsecase` declaration for `db`. */
  function UserBlock(db: Database): seq<byte> {
    Utf8(if db == MongoDB then MongoUserCode else PostgresUserCode)
  }

  /** The compiled multi-line regular expression that locates the
      `UserUsecase` struct through the end of `NewUserUsecase`: whether it
      matches, and the text with every match replaced. Its matching is not
      modelled. */
  datatype Matcher = Matcher(isMatch: seq<byte> -> bool, replaceAll: (seq<byte>, seq<byte>) -> seq<byte>)

  /** The `main.go` half: if either known block is present, both are
      replaced by the chosen block, the MongoDB one first; otherwise there
      is nothing to write. Of the two replacements, the one of the chosen
      block by itself changes nothing, so the patch amounts to replacing the
      other database's block by the chosen one; a file holding only the
      chosen block is written back byte for byte. */
  function PatchMainGo(content: seq<byte>, db: Database): (r: Option<seq<byte>>)
    ensures r.Some? <==> Occurs(content, InitBlock(MongoDB)) || Occurs(content, InitBlock(PostgreSQL))
    ensures r.Some? ==> r.value == Replace(content, OtherInitBlock(db), InitBlock(db))
  {
    var mongo, postgres := InitBlock(MongoDB), InitBlock(PostgreSQL);
    if Occurs(content, mongo) || Occurs(content, postgres) then
      var afterMongo := Replace(content, mongo, InitBlock(db));
      if db == MongoDB then
        ReplaceSelf(content, mongo);
        Some(Replace(afterMongo, postgres, InitBlock(db)))
      else
        ReplaceSelf(afterMongo, postgres);
        Some(Replace(afterMongo, postgres, InitBlock(db)))
    else
      None
  }

  /** The user use-case half: rewrite only when the pattern matches, and
      then replace every match by the chosen database's declaration. */
  function PatchUserGo(content: seq<byte>, db: Database, userPattern: Matcher): (r: Option<seq<byte>>)
    ensures r.Some? <==> userPattern.isMatch(content)
    ensures r.Some? ==>
              r.value == userPattern.replaceAll(content, Utf8(if db == MongoDB then MongoUserCode else PostgresUserCode))
  {
    if userPattern.isMatch(content) then Some(userPattern.replaceAll(content, UserBlock(db))) else None
  }

  function MainGoPatch(db: Database): seq<byte> -> Option<seq<byte>> {
    c => PatchMainGo(c, db)
  }

  function UserGoPatch(db: Database, userPattern: Matcher): seq<byte> -> Option<seq<byte>> {
    c => PatchUserGo(c, db, userPattern)
  }

  /** A `main.go` that is exactly the MongoDB block becomes exactly the
      PostgreSQL block when PostgreSQL is chosen, and vice versa. */
  lemma PatchMainGoExactBlock(db: Database)
    ensures PatchMainGo(OtherInitBlock(db), db) == Some(InitBlock(db))
  {
    var other, chosen := OtherInitBlock(db), InitBlock(db);
    ReplaceWhole(other, chosen);
    if db == MongoDB {
      assert Occurs(other, InitBlock(PostgreSQL));
    } else {
      assert Occurs(other, InitBlock(MongoDB));
    }
  }

  /** The result of the guarded patch of the file at `p`: the file exists
      and reads as UTF-8 text, the patch applies, and the file is writable. */
  ghost predicate Patches(fs: FileSystem, files: map<Path, seq<byte>>, p: Path,
                          patch: seq<byte> -> Option<seq<byte>>)
  {
    p in files && p !in fs.unreadable && IsUtf8(files[p]) && patch(files[p]).Some? && p !in fs.unwritable
  }

  /** The guarded patch of the file at `p` fails: it exists but cannot be
      read as text, or the patch applies and the file cannot be written. */
  ghost predicate PatchFails(fs: FileSystem, files: map<Path, seq<byte>>, p: Path,
                             patch: seq<byte> -> Option<seq<byte>>)
  {
    p in files &&
    (p in fs.unreadable || !IsUtf8(files[p]) || (patch(files[p]).Some? && p in fs.unwritable))
  }

  /** One half of `update_database_config`: a missing file is skipped with a
      warning; otherwise it is read as text (`?`), and if the patch applies
      the new text is written (`?`), else a warning is printed and the file
      is neither changed nor written. */
  method PatchFile(fs: FileSystem, p: Path, patch: seq<byte> -> Option<seq<byte>>)
    returns (r: Result<(), IoError>)
    modifies fs
    ensures r.Err? <==> PatchFails(fs, old(fs.files), p, patch)
    ensures Patches(fs, old(fs.files), p, patch) ==>
              fs.files == old(fs.files)[p := patch(old(fs.files)[p]).value]
              && fs.writes == old(fs.writes) + [p]
    ensures !Patches(fs, old(fs.files), p, patch) ==>
              fs.files == old(fs.files) && fs.writes == old(fs.writes)
  {
    if !fs.Exists(p) {
      return Ok(());
    }
    var content := fs.ReadText(p);
    if content.Err? {
      return Err(content.error);
    }
    var patched := patch(content.value);
    if patched.Some? {
      var written := fs.Write(p, patched.value);
      if written.Err? {
        return Err(written.error);
      }
    }
    r := Ok(());
  }

  function MainGoPath(root: Path): Path {
    Join(Join(root, "cmd"), "main.go")
  }

  function UserGoPath(root: Path): Path {
    Join(Join(Join(Join(Join(root, "internal"), "application"), "usecases"), "user"), "user.go")
  }

  /** `files` after a guarded patch of `p` that succeeds or is skipped. */
  ghost function AfterPatch(fs: FileSystem, files: map<Path, seq<byte>>, p: Path,
                            patch: seq<byte> -> Option<seq<byte>>): map<Path, seq<byte>>
  {
    if Patches(fs, files, p, patch) then files[p := patch(files[p]).value] else files
  }

  /** `update_database_config`: patch `main.go`, then the user use-case
      file. A failure of the first half returns before the second half runs;
      a missing file or a pattern that is not found is only a warning. */
  method UpdateDatabaseConfig(fs: FileSystem, root: Path, database: string, userPattern: Matcher)
    returns (r: Result<(), IoError>)
    modifies fs
    ensures var db := SelectDatabase(database);
            var mainPatch, userPatch := MainGoPatch(db), UserGoPatch(db, userPattern);
            var mainGo, userGo := MainGoPath(root), UserGoPath(root);
            && (PatchFails(fs, old(fs.files), mainGo, mainPatch) ==>
                  r.Err? && fs.files == old(fs.files) && fs.writes == old(fs.writes))
            && (!PatchFails(fs, old(fs.files), mainGo, mainPatch) ==>
                  (r.Err? <==> PatchFails(fs, old(fs.files), userGo, userPatch))
                  && fs.files == AfterPatch(fs, AfterPatch(fs, old(fs.files), mainGo, mainPatch), userGo, userPatch)
                  && fs.writes == old(fs.writes)
                                  + (if Patches(fs, old(fs.files), mainGo, mainPatch) then [mainGo] else [])
                                  + (if Patches(fs, old(fs.files), userGo, userPatch) then [userGo] else []))
  {
    var db := SelectDatabase(database);
    var mainGo, userGo := MainGoPath(root), UserGoPath(root);
    assert mainGo != userGo by {
      assert |mainGo| != |userGo|;
    }
    r := PatchFile(fs, mainGo, MainGoPatch(db));
    if r.Err? {
      return;
    }
    r := PatchFile(fs, userGo, UserGoPatch(db, userPattern));
  }
}
