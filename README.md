# wei-server-mcp: port selection and lookup tools, modelled in Dafny

wei-server-mcp is a local tool gateway. At start-up it chooses a loopback TCP
port, remembers the choice in the state file `wei-server-mcp.dat`, and then
serves a small set of tools. This project models the two parts of it that hold
logic of their own:

- **Port selection and persistence** (`src/main.rs`). `read_port_from_file`
  trims the state file's text and parses it as a `u16`. `save_port_to_file`
  writes the port's decimal text. `find_available_port` probes ports upward
  from a start port until a bind succeeds. The start of `main` picks the stored
  port or 1116, searches from there, and rewrites the file when the port moved
  or the file does not exist.
- **Static lookup tools** (`src/tools.rs`). `check_angel` answers one fixed
  text. `query_angel_type` lower-cases its input and looks it up among nine
  angel-type keys. `query_gpu_specs` upper-cases its input and looks it up
  among "H100" and "A100". Unknown input gets a fixed "unknown" text as a
  successful result.

Modules:

- `wrappers.dfy`, module `Wrappers`: `Option`, with `GetOr` for `unwrap_or`.
- `port_text.dfy`, module `PortText`: `Port` (the `u16` range). `Trim` is
  `str::trim` over the Unicode White_Space characters. `ParsePort` is
  `<u16 as FromStr>`: an optional `+`, one or more ASCII digits, value at most
  65535. `FormatPort` is `to_string`. Round trips in both directions.
- `port_search.dfy`, module `PortSearch`: `LowestFree` specifies the search.
  Three loops model `find_available_port`. `FindAvailablePort` has a wide
  enough counter to give up after 65535. `FindAvailablePortAsWritten` is the
  code as written in a debug build, where the increment past 65535 panics.
  `FindAvailablePortWrapping` is the code as written in a release build, where
  the increment wraps to 0. Port availability is the set `occupied` of ports
  whose bind fails.
- `port_boot.dfy`, module `PortBoot`: the state file is a `DatFile`
  (`Missing`, `Unreadable`, or `Text`). The class `PortStore` holds it as a
  field; its methods `ReadPort`, `Exists`, `SavePort` and `Boot` model the
  file functions and lines 59-77 of `main`. `BootResult` is the function
  `Boot` is proved against. Whether the write succeeds is a parameter.
- `tools.dfy`, module `Tools`: the three lookups. Replies are a datatype
  naming which text is returned. The long description texts stay abstract; an
  "unknown" reply carries the names its text lists.

Three places where the code does not do what the code around it expects:

- `main` has a `None` arm that reports "no port found" and exits
  (src/main.rs:64-67). `find_available_port` can never return `None`
  (first finding below).
- A file that exists but holds no valid port is read as no port
  (`unwrap_or(1116)` at src/main.rs:59). The comment at src/main.rs:70 and
  the condition at src/main.rs:71 rewrite the file only when it is missing,
  so such a file is kept when 1116 is free (second finding).
- The ordinary-angel description is selected by the key "天使"
  (src/tools.rs:48). The "unknown" text at src/tools.rs:49 lists
  "普通天使" instead (third finding).

`PortStore.Boot` and `BootResult` use `FindAvailablePort`, the search with
the evidently intended exhaustion behaviour. Exhaustion then ends in
`NoFreePort`, which is what the `None` arm of `main` was written for.
`BootResultAsWritten` gives the debug-build outcome, a panic, instead. `Boot`
keeps the save condition as written, and `QueryAngelType` keeps the angel list
as written; their corrected versions sit beside them.

## Model

| member | source | states |
|---|---|---|
| `PortText.TrimStart` | src/main.rs:23 | the result is a suffix of the text; everything cut off is whitespace; the result does not begin with whitespace |
| `PortText.TrimEnd` | src/main.rs:23 | the result is a prefix of the text; everything cut off is whitespace; the result does not end with whitespace |
| `PortText.Trim` | src/main.rs:23 | the trimmed text is no longer than the input, neither begins nor ends with whitespace, and is empty exactly when the input is all whitespace |
| `PortText.TrimPadded` | src/main.rs:23 | trimming removes whitespace padding around a text and nothing of the text itself |
| `PortText.FormatDecimal` | src/main.rs:32 | the written text is non-empty, all decimal digits, and has no leading zero unless the port is 0 |
| `PortText.FormatPort` | src/main.rs:32 | the text written for a port is one to five decimal digits, with no leading zero unless the port is 0 |
| `PortText.ParseFormatRoundTrip` | src/main.rs:21-33 | parsing the text written for any port gives back that port |
| `PortText.TrimDigits` | src/main.rs:23 | trimming a digit text leaves it unchanged, so a written port loads as written |
| `PortText.ParsePort` | src/main.rs:23 | an accepted text begins with `+` or a digit and ends with a digit, so surrounding whitespace must be trimmed first; a `-`-signed text is never accepted |
| `PortText.FormatParseRoundTrip` | src/main.rs:21-33 | a parsed text with no sign and no redundant leading zero is exactly the text written for its value |
| `PortText.ParseIgnoresLeadingZero` | src/main.rs:23 | a leading zero changes neither whether the text parses nor its value |
| `PortText.ParsePlusSign` | src/main.rs:23 | one leading `+` in front of any text that does not itself begin with `+` is accepted and does not change the result |
| `PortText.ParseRejects` | src/main.rs:23 | the empty text, a lone `+`, any `-`-signed text and 65536 do not parse; 65535 does |
| `PortText.PaddedTextExample` | src/main.rs:23 | the text `"  0080\n"` loads as port 80 |
| `PortSearch.LowestFree` | src/main.rs:41-52 | a found port is at or above the start and free, every port from the start below it is taken, and nothing is found exactly when every port from the start to 65535 is taken |
| `PortSearch.FindAvailablePort` | src/main.rs:41-52 | the loop returns the lowest free port at or above the start, or `None` when there is none |
| `PortSearch.FindAvailablePortAsWritten` | src/main.rs:41-52 | the loop as written never reaches its `None`; it returns the lowest free port, or panics on the increment past 65535 exactly when no port from the start is free |
| `PortSearch.LastPortTakenExample` | src/main.rs:43-51 | with 65535 taken, a search from 65535 finds nothing, and a search from 65534 finds 65534 |
| `PortSearch.Distance` | src/main.rs:49 | the number of wrapping increments from the start to a port is at most 65535 and reaches that port first |
| `PortSearch.FindAvailablePortWrapping` | src/main.rs:41-52 | with wrap-around, the loop returns a free port, and every port probed before it, in wrap-around order from the start, is taken |
| `PortSearch.WrappingBelowStartExample` | src/main.rs:45-49 | with only 65535 taken, the wrapping search from 65535 can end only at port 0, below its start |
| `PortBoot.InitialCandidate` | src/main.rs:59 | the initial candidate is the loaded port when there is one, otherwise 1116 |
| `PortBoot.LoadPort` | src/main.rs:21-28 | a port is loaded only from a present, readable file whose trimmed text is non-empty; an all-whitespace file loads no port |
| `PortBoot.NeedsSave` | src/main.rs:71 | a missing file is always saved, and a save never happens when a valid record already names the chosen port |
| `PortBoot.BootResult` | src/main.rs:59-77 | a started server's port is free and at or above the initial candidate; no port is found exactly when every port from the candidate up is taken; the file changes only by a successful save, which writes the server port's text |
| `PortBoot.PortStore.ReadPort` | src/main.rs:21-28 | a port is loaded exactly when the file holds text whose trimmed form parses as a `u16`; otherwise `None`, never an error |
| `PortBoot.PortStore.Exists` | src/main.rs:71 | the file counts as existing whenever it is present, readable or not |
| `PortBoot.PortStore.SavePort` | src/main.rs:31-33 | a successful write replaces the file with the port's decimal text; a failed one leaves it as it was |
| `PortBoot.PortStore.Boot` | src/main.rs:59-77 | the outcome and the new file are those of `BootResult` on the old file |
| `PortBoot.BootPicksLowestFree` | src/main.rs:59-68 | the server starts exactly when some port at or above the initial candidate is free, and then on the lowest such port |
| `PortBoot.BootSavesIff` | src/main.rs:70-77 | a save is attempted exactly when the chosen port differs from the initial candidate or the file is missing; otherwise the file is untouched |
| `PortBoot.LoadSavedPort` | src/main.rs:21-33 | a file written for a port loads as that port |
| `PortBoot.BootPersistsPort` | src/main.rs:59-77 | when the file was missing or held a valid port, after a boot with a working filesystem it loads as the server port |
| `PortBoot.BootSavedPortLoads` | src/main.rs:71-72 | whatever the file held before, once the port is saved the file loads as the server port |
| `PortBoot.CorruptFileKept` | src/main.rs:59-77 | a present file without a valid port is not rewritten when 1116 is free; the server starts on 1116 and the file still loads no port |
| `PortBoot.FirstBootExample` | src/main.rs:59-77 | with no state file and 1116 free, the server starts on 1116 and the file then holds "1116" |
| `PortBoot.MovedPortExample` | src/main.rs:59-77 | with "1116" stored and 1116 taken, the server starts on 1117 and the file is rewritten to "1117" |
| `PortBoot.BootResultAsWritten` | src/main.rs:59-77 | in a debug build the boot never reports "no port"; it panics exactly when every port from the initial candidate up is taken, with the file untouched, and otherwise agrees with `BootResult` |
| `PortBoot.BootAsWrittenPanicExample` | src/main.rs:43-67 | with "65535" stored and 65535 taken, the boot as written panics where the intended one reports that no port is free |
| `PortBoot.BootIntendedPersistsPort` | src/main.rs:71 | with the save condition "port moved or no valid port loaded", every boot that starts the server leaves the file loading as the server port |
| `Tools.ToLowercase` | src/tools.rs:39 | lower-casing keeps the length and maps each character on its own |
| `Tools.ToUppercase` | src/tools.rs:60 | upper-casing keeps the length and maps each character on its own |
| `Tools.CheckAngelConstant` | src/tools.rs:29-31 | any two arguments get the same answer, always the one fixed text as a successful result |
| `Tools.QueryAngelType` | src/tools.rs:38-52 | the lookup is total and always succeeds |
| `Tools.LowercaseToCaseless` | src/tools.rs:39 | lower-casing yields a key without ASCII letters exactly when the input is that key |
| `Tools.AngelLookupHit` | src/tools.rs:39-48 | an angel type's description is returned exactly when the input equals its key, with nothing around it |
| `Tools.AngelLookupFallback` | src/tools.rs:49 | the fixed "unknown angel type" text is returned exactly when the input is none of the nine keys |
| `Tools.ListedAngelNameUnknown` | src/tools.rs:48-49 | the "unknown" text names "普通天使", and asking for "普通天使" gets the "unknown" text |
| `Tools.QueryAngelTypeIntended` | src/tools.rs:38-52 | the lookup with an "unknown" text listing the nine keys is total and always succeeds |
| `Tools.IntendedListedAngelsFound` | src/tools.rs:49 | with that text, every name the "unknown" text lists selects a description |
| `Tools.QueryGpuSpecs` | src/tools.rs:59-116 | the lookup is total and always succeeds |
| `Tools.GpuLookupCaseInsensitive` | src/tools.rs:60 | inputs that differ only in the case of letters get identical replies |
| `Tools.UppercaseToGpuKey` | src/tools.rs:60 | upper-casing yields a GPU key exactly for that key and its lower-case spelling |
| `Tools.GpuLookupHit` | src/tools.rs:60-113 | a GPU's specification sheet is returned exactly for its key or that key in lower case, with nothing around it |
| `Tools.GpuLookupNoTrim` | src/tools.rs:60-113 | " H100" gets the "unknown GPU model" text, while "h100" and "H100" get the H100 sheet |
| `Tools.ListedGpuModelsFound` | src/tools.rs:113 | each model the "unknown GPU model" text lists selects its own sheet |

## Findings

| source | as written | input that shows it | evidently intended | confidence | as-written member | corrected member |
|---|---|---|---|---|---|---|
| src/main.rs:43-51 | `max_port` is inferred as `u16`, so `port <= max_port` always holds. Past 65535, `port += 1` panics in a debug build or wraps to 0 in a release build. The `None` after the loop is never returned. | start 65535 with 65535 taken: a debug build panics; a release build probes 0 and may return a port below the start | return `None` once 65535 has been probed, so that `main` reports "no port" and exits | high; not executed | `PortSearch.FindAvailablePortAsWritten` | `PortSearch.FindAvailablePort` |
| src/main.rs:71 | the file is rewritten only when the port moved or the file is missing | the file holds "abc" and 1116 is free: the server runs on 1116 but the file is kept and still loads no port | also rewrite when no valid port was loaded | low; not executed | `PortBoot.CorruptFileKept` | `PortBoot.BootIntendedPersistsPort` |
| src/tools.rs:48-49 | the "unknown angel type" text offers "普通天使", but the key for ordinary angels is "天使" | "普通天使" gets the "unknown" text that suggests it | the "unknown" text lists the keys that are found | medium; not executed | `Tools.ListedAngelNameUnknown` | `Tools.IntendedListedAngelsFound` |

## Left out

- `add_tool` and `sub_tool` (src/tools.rs:11-22) are not modelled. They compute with `f64` and render with `f64::to_string`.
- `is_port_available` (src/main.rs:36-38) is not modelled as a real bind. Each search takes the set of ports whose bind fails. The bind-then-release race with other processes is not modelled. Neither is the operating system's rule that binding port 0 picks a free port.
- File I/O is reduced to the state of `wei-server-mcp.dat`: missing, present but not readable as text, or present with text. A failed write leaves the file unchanged. Partial writes and errors of the existence check itself are not modelled.
- `PortText.ParsePort`: Rust's distinct parse error kinds (empty, invalid digit, overflow) all become `None`, as `read_port_from_file` discards them.
- `Tools.ToLowercase` and `Tools.ToUppercase` map ASCII letters only; Rust maps all of Unicode. This does not change which inputs hit: the angel keys hold no cased letters, and no non-ASCII character upper-cases to an ASCII "H" or "A". Replies to other non-ASCII input are the "unknown" text either way.
- `PortBoot.PortStore.Boot`, with `BootResult` and `BootPicksLowestFree`, uses the search that gives up after 65535. The code as written never reaches its "no port" exit (src/main.rs:64-67). When every port from the initial candidate up is taken, a debug build panics at src/main.rs:49 (modelled by `BootResultAsWritten`). A release build wraps to 0 and starts the server on a port below the candidate, and saves that port at src/main.rs:71-72. With a real bind, port 0 is always accepted, so that port is 0. The release-build boot is not modelled beyond `FindAvailablePortWrapping`.
- `PortSearch.FindAvailablePortWrapping` requires that some port be free. Without one, the release-build loop never ends.
- Everything in `main` from src/main.rs:79 on is not modelled: registering the tools, building and starting the server, the self-client's open, initialize and list-tools steps, and the agent prompt. These are asynchronous network calls into libraries that are not part of this model.
- src/tools.rs has no tool that runs an external process, so the model has none.
- The tools' declared names, descriptions and parameter lists (the `#[tool]` attributes) are not modelled.
- Log and console output is not modelled.
- The description texts are not modelled. Replies name which text is returned, not the text itself.
