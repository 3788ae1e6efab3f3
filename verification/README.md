# Verified model of the insectopedia GBIF setup script

The script `src/prototype/classifiers/setup_api.py` fills a Kaggle insect
dataset with species metadata. It takes the path of the dataset's `database`
directory. It refuses a path that is not a string, that ends in `.tar` or that
does not end in `database`. It then walks the tree. Every child directory
whose name is all digits is a GBIF species id. For each one it requests
`https://api.gbif.org/v1/species/<id>`. On status 200 it writes the JSON body
to `<dirPath>/<name>/index.json`. Any other child name, and any other status,
gives a `RuntimeWarning`, and the walk goes on.

The model keeps the script's decision procedure and treats the outside world
as inputs:

- the walk is a `seq<Level>`: each `Level(dirPath, names)` is one item of what
  `os.walk` yields;
- the GBIF service is a function `Server` from request URL to
  `Response(status, body)`;
- `json.dumps(info.json())` is a function `Serializer` from body to file text;
- the run's observable effects form an ordered log of `Fetch(url)`,
  `Write(path, content)` and `Warn(message)`. The files on disk are a map from
  path to content, and each write replaces the whole file (mode `'w'`).

Modules:

- `Text` (`text.dfy`): the Python string builtins the script uses. These are
  `str.endswith`, ASCII `str.isdigit`, `int()` on a digit string and `str()` on
  an integer, with their round trips.
- `Effects` (`effects.dfy`): the effect log, counting by kind, and the file
  store after a log has been carried out.
- `SetupApi` (`setup_api.dfy`): the argument, error and response datatypes, and
  the messages and URL/path builders. Pure functions give the effects of
  `dumpInsectIndex`, of one child name, of one level and of the whole walk.
  The class `Host` (the log plus the files on disk) has one method per Python
  function: `SetupSimpleDatabase` with its two nested loops (the inner one is
  `VisitLevel`), `DumpInsectIndex` and `RequestSpeciesData`. Each is proved
  against the pure functions.
- `WalkProperties` (`walk_properties.dfy`): what a run promises. The walk is
  flattened into its (directory, name) entries.

## Notes on the script's behaviour

- The root check is a raw suffix test (`endswith('database')`), not a
  comparison of the final path component. So `/data/mydatabase` is accepted and
  `/data/database/` is refused.
- The non-200 warning names the base URL `https://api.gbif.org/v1/species/`,
  the status code and the id. It does not name the full request URL.

## Model

| member | source | states |
|---|---|---|
| `SetupApi.ValidateRoot` | src/prototype/classifiers/setup_api.py:27-36 | A root path passes exactly when it is a string ending in `database`. A non-string gets the TypeError, and only a non-string gets it. The `.tar` check never refuses a path that the `database` check would accept. |
| `WalkProperties.TarCheckedFirst` | src/prototype/classifiers/setup_api.py:30-36 | A path ending in `.tar` gets the extraction RuntimeError, although it would also fail the `database` check. |
| `WalkProperties.RejectedRootHasNoEffects` | src/prototype/classifiers/setup_api.py:27-39 | A refused root path makes the run `Setup` its fatal error, so `SetupApi.Host.SetupSimpleDatabase` issues no request, write or warning. A non-string gets the TypeError. A string that neither ends in `.tar` nor in `database` gets the naming RuntimeError. |
| `WalkProperties.RawSuffixTest` | src/prototype/classifiers/setup_api.py:34 | `/data/mydatabase` is accepted and `/data/database/` is refused with the naming error: a raw suffix test. |
| `WalkProperties.SourceTestPaths` | src/prototype/classifiers/test_setup_api.py:68-82 | The test's argument `560` gets the TypeError. `TMP_DIR + '.tar'` gets the extraction error. `TMP_DIR + '/some_non_database_ending_string'` gets the naming error. `TMP_DIR` itself is accepted. |
| `SetupApi.Host.SetupSimpleDatabase` | src/prototype/classifiers/setup_api.py:14-49 | Returns the validation outcome, and matches the pure run `Setup`: a refused root gives `Setup`'s fatal error, an accepted one its effect log. On failure, the log and the files are unchanged: no request, write or warning. On success, the log grows by exactly the walk's effects, and the files are the old files with those writes carried out. |
| `SetupApi.Host.VisitLevel` | src/prototype/classifiers/setup_api.py:41-49 | The inner loop appends the effects of every child name of one level, in order, and carries out their writes. |
| `SetupApi.Host.DumpInsectIndex` | src/prototype/classifiers/setup_api.py:52-78 | For a digit name, appends one request and then one write or one warning, and carries out the write on the files. |
| `SetupApi.Host.RequestSpeciesData` | src/prototype/classifiers/setup_api.py:81-93 | A non-int argument raises TypeError and nothing is logged. An int id logs exactly one GET of the species URL and returns the server's response for that URL. Files are unchanged. |
| `SetupApi.Host.WriteFile` | src/prototype/classifiers/setup_api.py:73-74 | Opening in mode `'w'` and writing leaves the path holding exactly the data. The write is logged. |
| `SetupApi.Host.IssueWarning` | src/prototype/classifiers/setup_api.py:45-46 | A warning is one appended log entry and changes no file. |
| `SetupApi.SpeciesUrl` | src/prototype/classifiers/setup_api.py:92 | The URL starts with the GBIF species endpoint and is followed by `str(id)`. For a non-negative id, the rest is a digit string without a superfluous leading zero that parses back to the id, which with `Text.NatDecimalOfDigitsValue` makes it exactly `str(id)`. For a negative id, the rest is `-` followed by such a string for `-id`. |
| `SetupApi.IndexPath` | src/prototype/classifiers/setup_api.py:71 | The output path starts with `dirPath + '/'` and ends with `/index.json`. Between them is exactly the directory name string. |
| `WalkProperties.SpeciesUrlInjective` | src/prototype/classifiers/setup_api.py:92 | Different ids are requested at different URLs. |
| `WalkProperties.RequestedAsWritten` | src/prototype/classifiers/setup_api.py:60-71 | A digit name is requested under its own text if and only if it has no superfluous leading zero (so `0` is, `007` is not). |
| `WalkProperties.LeadingZerosKeepDirectoryName` | src/prototype/classifiers/setup_api.py:60-71 | The name `007` is requested as species `7`. On status 200, its index is written to `dirPath + '/007/index.json'`. |
| `WalkProperties.NameOutcome` | src/prototype/classifiers/setup_api.py:41-78 | Every child name has exactly one outcome, a write or a warning. A non-digit name gives only the parse warning, with no request. A digit name gives one request of its species URL. On 200, the serialised body is then written to its index path. Otherwise a warning carries the status code and the id. |
| `WalkProperties.WalkIsEntryByEntry` | src/prototype/classifiers/setup_api.py:39-49 | The nested loops' effects are those of the walk's entries, handled one after another in visiting order. |
| `WalkProperties.EntriesTally` | src/prototype/classifiers/setup_api.py:41-78 | Over any entries: requests = digit names; writes = digit names answered 200; warnings = the other entries. |
| `WalkProperties.WalkTally` | src/prototype/classifiers/setup_api.py:39-78 | The walk never aborts. The run makes one request per digit name and one write per digit name answered 200. It gives one warning per remaining name. Writes plus warnings equal the number of names. |
| `WalkProperties.IndexPathInjective` | src/prototype/classifiers/setup_api.py:71 | For names without '/', the index path determines both the parent directory and the name. |
| `WalkProperties.NameWrites` | src/prototype/classifiers/setup_api.py:65-78 | One name changes the files only by writing its own index, and only when it is a digit name answered 200. |
| `WalkProperties.WrittenOnlyIfStored` | src/prototype/classifiers/setup_api.py:65-75 | Suppose an entry's index path was written. Then the entry is a digit name answered 200, and the file holds that entry's serialised body. |
| `WalkProperties.StoredIsWritten` | src/prototype/classifiers/setup_api.py:65-75 | Every digit-named entry answered 200 has its index written. |
| `WalkProperties.OnlyIndexFilesWritten` | src/prototype/classifiers/setup_api.py:71-74 | Every written path is the index path of some entry that was answered 200. |
| `WalkProperties.IndexFileAfterWalk` | src/prototype/classifiers/setup_api.py:39-78 | After a run, the `index.json` of each visited name depends on its outcome. For a digit name answered 200, it holds the serialised body. For a non-digit name, or another status, it is exactly as before. |
| `WalkProperties.OnlyIndexFilesChange` | src/prototype/classifiers/setup_api.py:71-74 | A run leaves every path unchanged unless it is the index of an entry answered 200. |
| `Effects.ApplyIsOverwrite` | src/prototype/classifiers/setup_api.py:73-74 | Carrying out a log keeps the unwritten files. Each written path ends with the content of its last write. |
| `Effects.ApplyTwice` | src/prototype/classifiers/setup_api.py:73-74 | Re-running with the same server and walk reaches the same files. Carrying out a log again on its own result changes nothing. |
| `Effects.ApplyConcat` | src/prototype/classifiers/setup_api.py:39-49 | Carrying out two logs one after the other equals carrying out their concatenation. |
| `WalkProperties.StatusWarningInjective` | src/prototype/classifiers/setup_api.py:77-78 | The non-200 warning determines both the status code and the insect id. |
| `WalkProperties.NameWarningDistinct` | src/prototype/classifiers/setup_api.py:45-46 | The parse warning determines the directory name. It never reads like a status warning. |
| `Text.NatDecimal` | src/prototype/classifiers/setup_api.py:92 | `str(n)` of a non-negative integer is a non-empty digit string without a superfluous leading zero. |
| `Text.Decimal` | src/prototype/classifiers/setup_api.py:92 | `str(i)` is non-empty. It starts with a digit exactly when `i >= 0`, and is then canonical. |
| `Text.DigitsValueOfNatDecimal` | src/prototype/classifiers/setup_api.py:60 | `int(str(n)) == n` for every non-negative integer. |
| `Text.NatDecimalOfDigitsValue` | src/prototype/classifiers/setup_api.py:60 | `str(int(s)) == s` for every digit string without a superfluous leading zero. |
| `Text.DecimalInjective` | src/prototype/classifiers/setup_api.py:92 | `str` is injective on integers, negative ones included. |

## Left out

- HTTP: `requests.get`, the response object and the GBIF service are the
  `Server` function. Timeouts, connection errors and their exceptions are not
  modelled.
- Directory traversal: `os.walk` is the input walk. Its order, its silence on a
  missing root, and the file system's contents are not modelled.
- JSON: `info.json()` and `json.dumps` are the opaque `Serializer`. A body that
  is not valid JSON would make `info.json()` raise and end the run. That
  exception is not modelled.
- Console output: the `print` calls are informational and are left out. The
  Python `warnings` filters and their de-duplication are left out too: every
  warning is one log entry, and every warning is a `RuntimeWarning`.
- `isdigit` is modelled on ASCII digits only: the model treats every name with
  a non-ASCII character as a non-digit name that gets one parse warning. The
  script differs for names that Python's `isdigit` accepts. For Unicode
  decimal digits such as Arabic-Indic `٣` it calls `dumpInsectIndex`, requests
  species `int(name)` and writes under the name. For other digits, such as
  superscripts or circled digits, `int(dir)` raises `ValueError` and aborts the
  run. Booleans, which Python counts as `int` in `isinstance`, are not a
  separate argument kind.
- `int()` on a digit string of more than 4300 characters raises `ValueError`
  in recent Python versions. The model's `DigitsValue` has no such limit.
- Opening `index.json` fails when the directory does not exist. The model
  assumes every written directory exists. This holds for names that come from
  the walk.
- `SetupApi.Host.DumpInsectIndex` requires a digit name. Its docstring expects
  "a directory name composed of only digits", and the walk only calls it with
  such names. `int()`'s wider grammar (sign, surrounding blanks, underscores)
  and its `ValueError` for other strings are not modelled.
- The `__main__` block does nothing and is not modelled.
