# cargo-fak record creation, modelled in Dafny

`cargo fak adr <TITLE>` writes an Architecture Decision Record (ADR): it
creates `./docs/adr`, takes the current time in whole seconds since the Unix
epoch as the record's key, and creates (or truncates) the file
`./docs/adr/<key>_<TITLE>.md`, into which it writes a fixed ADR template.

The model has four modules:

- `Wrappers` (wrappers.dfy): `Option` and `Result`.
- `Numerals` (numerals.dfy): the decimal rendering Rust's `{}` gives the key,
  `Decimal`, and its reader `ValueOf`, proved inverse to each other on
  canonical numerals.
- `RecordName` (record_name.dfy): `GetKey` (`get_key`), `GetTitle`
  (`get_title`) and `RecordPath` (the `format!` in `get_file`), with
  `ParseRecordPath` as its inverse, which reads a path back into its key and
  title. The two round trips make the naming injective: distinct
  `(key, title)` pairs never share a path. The title is kept verbatim:
  no lowercasing, and `/`, `_`, spaces and non-ASCII pass through unchanged.
- `RecordWriter` (record_writer.dfy): the filesystem as a class with a set
  of directories and a path-to-contents map, updated in place by
  `CreateDirAll` (`fs::create_dir_all`), `CreateFile` (`File::create`, which
  truncates) and `WriteAll` (`write_all`); `Run` is `main`, proved equal to
  the pure `RunSpec`, about which the run's properties are lemmas. In
  particular, the program has no collision avoidance: two successful runs in
  the same second with the same title leave one record, the second
  overwriting the first.

What the environment decides is a parameter of a run (`Env`): whether
directory creation succeeds, the parsed command line, the clock reading in
nanoseconds relative to the epoch (negative means before it), whether file
creation succeeds and how the write ends. Panics (`get_key` before the
epoch, `File::create` failing) and errors returned from `main`
(`create_dir_all`, `write_all`) are the distinct `Exit` cases.

The program has one record kind and one fixed directory. It uses the title
verbatim, and a clash of names overwrites the earlier record.

## Model

| member | source | states |
|---|---|---|
| `Numerals.Decimal` | src/main.rs:59 | the key is printed as a canonical numeral: non-empty, only digits, no leading zero unless the key is 0, and never containing `_` |
| `Numerals.ValueOfDecimal` | src/main.rs:59 | reading back the printed key gives the key |
| `Numerals.DecimalOfValue` | src/main.rs:59 | every canonical numeral is what `{}` prints for its value |
| `Numerals.DecimalInjective` | src/main.rs:59 | distinct keys print differently |
| `RecordName.GetKey` | src/main.rs:39-44 | fails exactly when the clock is before the Unix epoch; otherwise the key is the whole seconds elapsed, the sub-second part dropped |
| `RecordName.GetKeySameSecond` | src/main.rs:41 | two runs within the same whole second get the same key |
| `RecordName.GetKeyMonotonic` | src/main.rs:41 | a later clock reading never gives a smaller key |
| `RecordName.GetTitle` | src/main.rs:46-56 | the `TITLE` value when the `adr` subcommand matched and `TITLE` is present; `"No title"` in both other cases |
| `RecordName.RecordPath` | src/main.rs:59 | the path starts with the fixed `./docs/adr/`, ends with `.md`, and has the length of directory, key, separator, title and extension together |
| `RecordName.RecordPathSegments` | src/main.rs:59 | after the directory comes the key's canonical numeral, then `_`, then the title unchanged, then `.md` |
| `RecordName.ParseRecordPathOfRecordPath` | src/main.rs:59 | parsing a record path recovers the key and the title verbatim |
| `RecordName.RecordPathOfParseRecordPath` | src/main.rs:59 | every path that parses is the record path of what it parses to |
| `RecordName.RecordPathInjective` | src/main.rs:59 | distinct `(key, title)` pairs give distinct paths |
| `RecordWriter.Written` | src/main.rs:74 | a write leaves a prefix of the template in the file: all of it when the write succeeds, a strict prefix when it fails |
| `RecordWriter.PlannedPath` | src/main.rs:58-59 | a run has a path exactly when the clock is not before the epoch, and that path parses back to the run's key and title |
| `RecordWriter.RunSpec` | src/main.rs:68-75 | directory failure (and only it) exits with an error and changes nothing; otherwise the record directories exist; the clock panics exactly when it is before the epoch; `File::create` failing (and only that) panics, leaving every file as it was; a failed write (and only that) exits with an error after leaving a strict template prefix at the planned path; success puts exactly the template there |
| `RecordWriter.RunTouchesOnlyPlannedPath` | src/main.rs:62-74 | every path other than the planned one keeps its presence and contents |
| `RecordWriter.RunOverwritesExisting` | src/main.rs:62 | a successful run onto an existing record replaces its contents and adds no file |
| `RecordWriter.SameSecondSameTitleOneRecord` | src/main.rs:58-65 | two successful runs in one second with one title produce one record: the second run leaves the filesystem as the first left it |
| `RecordWriter.DistinctKeyOrTitleKeepsBoth` | src/main.rs:59 | two successful runs differing in key or title write different paths and both records survive |
| `RecordWriter.FileSystem.CreateDirAll` | src/main.rs:69 | on success the record directory and its parent exist; files are untouched |
| `RecordWriter.FileSystem.CreateFile` | src/main.rs:62-65 | on success the path holds an empty file, whether or not it existed; nothing else changes |
| `RecordWriter.FileSystem.WriteAll` | src/main.rs:74 | appends what the write accepted to the file at the path; nothing else changes |
| `RecordWriter.FileSystem.Run` | src/main.rs:68-75 | the run's new state and exit are those of `RunSpec`; on success exactly the record path changes, to the template |

## Left out

- Command-line parsing (`get_matches`, src/main.rs:25-37) is reduced to `ArgMatches`: whether the `adr` subcommand matched and its `TITLE`. Usage errors, help and version output happen inside the argument library, which is not part of this model; `Exit` has no case for them. Such a run exits after `create_dir_all` (src/main.rs:69-70), so it leaves the record directories behind and writes no file.
- Reading the system clock is a parameter: a count of nanoseconds relative to the Unix epoch.
- `GetKey`: the key is an unbounded `nat`; the `u64` width of `as_secs` is not modelled, since a clock reading whose seconds exceed it cannot occur.
- Operating-system behaviour of `create_dir_all`, `File::create` and `write_all` (permissions, error kinds, a missing parent when the title holds `/`) is reduced to a success or failure outcome given in `Env`; a failing `create_dir_all` is modelled as creating nothing.
- `RecordWriter.Written`: a failed write is described by how many characters it accepted; an accepted count at or beyond the template's length, which `write_all` cannot report, is read as all but the last character. The error kinds and retries inside `write_all` are not modelled.
- Paths are plain strings: the file map does not resolve `..`, `.` or repeated `/` that a title may introduce, so two different strings are two different files.
- The ADR template (src/main.rs:11-22) is an opaque constant, reduced to its four section headings; file contents are text rather than UTF-8 bytes.
- Panic messages and the error values `main` returns are reduced to the cases of `Exit`.
