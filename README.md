# genesis: a verified model of the scaffolding core

genesis is a command-line tool that creates starter projects. It clones a
template repository with a progress bar. In a Go template it replaces the
placeholder module name in every file and rewires the database code for
MongoDB or PostgreSQL. In a Rust template it sets `package.name` in
`Cargo.toml`. It then runs `go mod tidy`, `npm install` or `cargo build`.
The source also defines a self-update, `update_genesis`, which runs
`cargo install genesis_rs`; no code path in `src/main.rs` calls it, and it
is modelled as written.

This project models that core in Dafny:

- `replace.dfy` (`Replacing`) is the pure meaning of literal
  find-and-replace: one greedy, left-to-right, non-overlapping scan. It
  proves the laws of that scan:
  - a replacement happens exactly when the pattern occurs;
  - the length law;
  - with no occurrence, the output is the input;
  - replacing a pattern by itself changes nothing;
  - a second pass changes the text again when the pattern occurs in the
    input and the replacement differs from the pattern but contains it.
- `file.dfy` (`RewriteTree`) is the byte loop of `update_file_content`,
  proved to compute that scan. It also models the tree walk of
  `update_module_name` over a filesystem class.
- `filesystem.dfy` (`Files`) is the filesystem: a map from file paths to
  bytes, plus a log of successful writes. Which files cannot be read or
  written is fixed when the filesystem is made.
- `text.dfy` (`Text`) is the UTF-8 encoding of Rust strings (`as_bytes`)
  and the validity check of `read_to_string`. Every encoded string passes
  that check.
- `manifest.dfy` (`Manifest`) is the `package.name` edit of
  `update_cargo_toml` on an abstract TOML document, and the read, parse,
  edit and write sequence around it.
- `database.dfy` (`DatabaseConfig`) is `update_database_config`:
  - the choice of database;
  - the guarded literal patch of `cmd/main.go`;
  - the regular-expression patch of `user.go`, through an abstract matcher;
  - skipping missing files.
- `git.dfy` (`Clone`) covers `clone_repo`: the percentage and message the
  progress callback computes, the progress bar as a class, and the clone
  result passed back unchanged.
- `setup.dfy` (`Setup`) holds the per-stack setup sequences and
  `update_genesis`. Each run is recorded as a trace of the steps taken and
  whether each succeeded. `RanUntilFailure` states the error policy: steps
  run in plan order, and the run stops at the first failure. The network,
  child processes, the TOML codec and the `user.go` pattern are supplied as
  a `World` value.

`setup_react_ts_vite_project` is modelled as written, even though no code
path in `src/main.rs` calls it.

## Model

| member | source | states |
|---|---|---|
| Replacing.MatchCountPositiveIffOccurs | src/file.rs:44-57 | the scan makes at least one replacement if and only if the pattern occurs somewhere in the input, which is when `updated` becomes true |
| Replacing.ReplaceLength | src/file.rs:49-56 | output length = input length + (number of replacements) × (`new` length − `old` length) |
| Replacing.ReplaceWithoutMatch | src/file.rs:53-56 | a scan that makes no replacement copies every byte, so the output equals the input |
| Replacing.NoOccurrenceUnchanged | src/file.rs:47-57 | if the old name does not occur, the new buffer equals the old contents |
| Replacing.ReplaceSelf | src/file.rs:49-52 | when the old and new names are equal, the output bytes equal the input bytes, whether or not anything matched |
| Replacing.ReplacementAppears | src/file.rs:49-52 | once a replacement happens, the new name occurs in the output at some index |
| Replacing.SecondPassStillMatches | src/file.rs:47-57 | if the old name occurs in the input and also inside the new name, it still occurs after the rewrite |
| Replacing.SecondPassChanges | src/file.rs:47-57 | if the old name occurs in the input, and the new name differs from it but contains it, rewriting twice gives a different result from rewriting once |
| RewriteTree.ScanReplace | src/file.rs:44-57 | the loop's buffer is the greedy non-overlapping replacement of the contents, and `updated` holds exactly when the old name occurs; it needs a non-empty old name to terminate |
| RewriteTree.UpdateFileContent | src/file.rs:32-65 | returns Ok exactly when the file exists, is readable, and is writable whenever it must be rewritten; the Ok value is whether the old name occurs; a file is replaced by the greedy rewrite and logged once as written only when it is readable, contains the old name and is writable; otherwise nothing changes |
| RewriteTree.UpdateModuleName | src/file.rs:8-30 | always Ok; no file is added or removed; every file under the root that can be read and written and contains the old name holds the rewritten bytes, and every other file keeps its bytes; the new writes are exactly those rewritten files |
| Files.FileSystem.Read | src/file.rs:37-39 | opening and reading a file succeeds if and only if it exists and is readable, and yields its bytes |
| Files.FileSystem.ReadText | src/utils.rs:27 | reading as text succeeds if and only if the read succeeds and the bytes are well-formed UTF-8 |
| Files.FileSystem.Write | src/file.rs:60-61 | creating and writing a file fails with a permission error if it is unwritable; otherwise it stores exactly the new bytes and logs the write |
| Text.Utf8 | src/file.rs:41-42 | `as_bytes` of an n-character string has between n and 4n bytes |
| Text.Utf8IsWellFormed | src/file.rs:41-42 | the bytes of any Rust string pass the UTF-8 check of `read_to_string` |
| Manifest.SetPackageName | src/utils.rs:30-34 | `package.name` becomes the given string exactly when the document has a table-like `package` (the key is inserted if it was missing); no table is added, `package` gains at most the key `name`, and every other table and key is unchanged |
| Manifest.SetPackageNameIdempotent | src/utils.rs:30-34 | applying the edit twice with the same name gives the same document as applying it once |
| Manifest.SetPackageNameNoChange | src/utils.rs:30-34 | a document with no table-like `package`, or whose package name already is the given one, is returned unchanged |
| Manifest.UpdateCargoToml | src/utils.rs:22-42 | a read or parse failure is returned with nothing written; otherwise the printed, edited document is written to `Cargo.toml` (even if no name was set), or the write's permission error is returned; so it succeeds exactly when `Cargo.toml` exists, is readable UTF-8 text, parses and is writable, and the tree afterwards is the tree with that one file updated (`AfterCargoToml`) |
| DatabaseConfig.SelectDatabase | src/utils.rs:99-115 | the MongoDB blocks are chosen if and only if the database string is exactly `mongodb`; every other string chooses PostgreSQL |
| DatabaseConfig.PatchMainGo | src/utils.rs:133-143 | main.go is rewritten if and only if it contains either known block; the two replacements (MongoDB first) then amount to replacing the other database's block by the chosen one |
| DatabaseConfig.PatchUserGo | src/utils.rs:184-196 | user.go is rewritten if and only if the pattern matches, and then every match is replaced by the chosen database's `UserUsecase` declaration; the matching itself is not modelled |
| DatabaseConfig.PatchMainGoExactBlock | src/utils.rs:117-136 | a main.go that is exactly the other database's block becomes exactly the chosen block |
| DatabaseConfig.PatchFile | src/utils.rs:96-149 | a missing file is skipped with Ok; a file that cannot be read as text is an error; a patch that applies is written, and a failed write is an error; a patch that does not apply leaves the file unchanged and unwritten |
| DatabaseConfig.UpdateDatabaseConfig | src/utils.rs:91-202 | a main.go failure returns an error before user.go is touched; otherwise the result is an error exactly when the user.go patch fails, and the files and write log are main.go's patch followed by user.go's |
| Clone.StageOf | src/git.rs:29-35 | "Resolving deltas..." exactly when received equals total, including 0 of 0; "Receiving objects..." exactly when they differ and the total is positive; "Preparing..." exactly when they differ and the total is 0 |
| Clone.Percent | src/git.rs:37-41 | 0 while the total is 0; otherwise the floor of 100 × received / total |
| Clone.PercentAtMost100 | src/git.rs:37-39 | the position is at most 100 whenever no more objects than the total have arrived |
| Clone.PercentMonotone | src/git.rs:38 | for a fixed total, the position never decreases as more objects arrive |
| Clone.PercentFullIffComplete | src/git.rs:37-39 | with the total known, the position is 100 if and only if every object has arrived |
| Clone.ProgressBar.constructor | src/git.rs:11 | a new bar has length 100, is at position 0 and is not finished |
| Clone.ProgressBar.SetMessage | src/git.rs:30 | only the message changes |
| Clone.ProgressBar.SetPosition | src/git.rs:42 | only the position changes |
| Clone.ProgressBar.FinishWithMessage | src/git.rs:54 | the bar is full, shows the message and is finished |
| Clone.TransferProgress | src/git.rs:27-44 | after a report, the bar shows the stage message and the percentage for that report; the callback never cancels the transfer |
| Clone.CloneRepo | src/git.rs:9-57 | the bar ends full with "Done!"; a transfer error is returned unchanged with no file on disk; on success the checkout's files are on disk and the repository at the path is returned; files outside the destination are never touched |
| Setup.RanUntilFailure | src/setup.rs:71-94 | the `?` policy: steps are taken in plan order, each only after every earlier one succeeded, and the run stops at the first failure; the result is Ok if and only if the whole plan ran and every step succeeded |
| Setup.FailureEndsRun | src/setup.rs:71-94 | under the `?` policy, a failed step is the last step taken and the run returns an error; every earlier step succeeded |
| Setup.SetupReactTsViteProject | src/setup.rs:13-49 | runs clone, then `npm install --legacy-peer-deps` in the project directory (base joined with name); a clone failure returns its error before npm runs; only a failure to spawn npm is an error |
| Setup.ConfigureGoTemplate | src/setup.rs:73-87 | the rename always runs and its errors are ignored; the result is an error exactly when a database patch fails on the renamed tree; the tree afterwards is the renamed tree with main.go patched and, unless that failed, user.go patched (`GoConfigured`); the write log only grows |
| Setup.SetupGoProject | src/setup.rs:51-104 | clone, module rename, database patch, `go mod tidy`, in that order; a clone failure returns its error with nothing on disk changed; after a clone the rename step always succeeds, the database step fails exactly when a patch fails on the renamed checkout, and then the run returns `DatabaseConfigFailed` and `go mod tidy` never runs; otherwise `go mod tidy` runs and only a failure to spawn it is an error; the tree is the checkout renamed and patched |
| Setup.SetupBasicRustProject | src/setup.rs:129-152 | runs only `cargo new` on the project path; the result is Ok exactly when it could be spawned, whatever its exit status |
| Setup.SetupFullRustProject | src/setup.rs:154-201 | `FullRustRan`: clone, Cargo.toml update, `cargo build`, in that order; a clone failure returns its error with nothing changed; after a clone the manifest step succeeds exactly when the checkout's `Cargo.toml` can be updated, a failure returns `ManifestFailed` before the build, and the tree is the checkout with `Cargo.toml` updated; only a failure to spawn `cargo build` is an error |
| Setup.SetupRustProject | src/setup.rs:106-127 | a failed prompt is an error with no step taken; choice 0 runs only `cargo new`, changes no file, and is Ok exactly when `cargo new` could be spawned; choice 1 does everything `FullRustRan` states of the full-template setup |
| Setup.UpdateGenesis | src/setup.rs:212-235 | runs `cargo install genesis_rs` once; a spawn failure is returned; otherwise Ok, with "updated" if and only if it exited with 0 and stdout contains "Replacing", "up to date" if and only if it exited with 0 without it, and "failed" with the captured stderr if and only if the exit status is non-zero |

## Left out

- Network cloning (`RepoBuilder::clone`, credentials, `git2`) is a caller-supplied `Transfer`: its progress reports and its outcome, either the checkout's files or an error.
- The progress bar's style, template and drawing are not modelled; only its message, position and finished state are.
- Clone.Percent: `100 * received_objects()` is computed in `usize` and would overflow for astronomically large object counts; the model uses unbounded integers.
- Manifest.SetPackageName: follows `toml_edit`'s `Index for str`, whose `index_mut` inserts a missing key into a table-like item, so a `package` table without `name` gains one. The `toml_edit` source is not part of this model, and neither is its exact version.
- TOML parsing and printing (`toml_edit`) are a caller-supplied `TomlCodec`. Formatting, comments and key order are not modelled, and neither is the `Document → Item` conversion of the new value beyond "a string".
- The `user.go` regular expression is not modelled: `is_match` and `replace_all` are caller-supplied, and only the guard around them is specified.
- Child processes (`npm`, `go`, `cargo`) are caller-supplied: the exit status or spawn error of `status()`, and the captured output of `output()`. What they do to the filesystem is not modelled.
- Setup.SetupGoProject: after a successful clone, the write log is not stated; `Setup.ConfigureGoTemplate` states only that it grows.
- Setup.SetupFullRustProject: after a successful clone, the write log is not stated; `Manifest.UpdateCargoToml` states it for the manifest step.
- Clone.CloneRepo: requires that the transfer only yields files inside the destination. git refuses to clone into a non-empty directory; here the caller-supplied transfer decides that outcome, and on success its files replace any of the same path.
- Files.FileSystem.Write: a `File::create` that succeeds followed by a `write_all` that fails leaves a truncated file. The model treats a write as all or nothing.
- Files.FileSystem.Read: a file that opens but fails while being read is folded into "unreadable".
- Setup.ProjectPath: joins the project name as one path component. Rust's `Path::join` replaces the base when the name is an absolute path, and a name containing `/` adds several components; the name is free text typed by the user, and these cases are not modelled.
- Directories and symbolic links are not modelled. A path is either a regular file or absent, so `exists()` and `is_file()` agree.
- RewriteTree.UpdateModuleName: `WalkDir` errors are dropped by the source (src/file.rs:15), so files under a directory the walk cannot list are never visited and keep their bytes. The model has no directories and visits every file under the root; such a file is rewritten in the model but not by the source.
- The walk order is arbitrary, as with `WalkDir`: the loop picks any remaining file.
- The printed messages (updated file names, warnings, success lines) and the spinner are not modelled; warnings appear only as paths that lead to no write.
- `src/main.rs` (argument parsing, prompts, banner, desktop path, `.env`, language dispatch and its "Unsupported" exit) is not part of this model. Prompt answers are parameters: `selection` for the Rust project type, `moduleName` and `database` for Go.
- `prompt_step`, `prompt_database_selection` and `print_banner` are terminal UI and are not modelled.
- `_remove_dot_git_dir` is not modelled: no code path calls it.
- The repository URLs and the placeholder module name come from `src/constants.rs`, which is not part of this model. They are the `Config` parameter.
- Setup.UpdateGenesis: is not Ok on every run. A failure to spawn `cargo` propagates through `output()?` (src/setup.rs:217), and the model follows the code.
- Setup.UpdateGenesis: `String::from_utf8_lossy` is not modelled. The search for "Replacing" runs on the raw stdout bytes, which gives the same answer because lossy decoding keeps every ASCII byte as it is.
