# Service and driver enumeration (svc_enum_bof.c), modelled in Dafny

The Beacon object file `svc_enum_bof.c` lists the active Windows services
and/or the loaded kernel drivers. It opens the Service Control Manager (SCM)
once. For each selected type filter it runs the two-call
`EnumServicesStatusExW` pattern in `enum_scm_type`. That is a sizing call,
then a scratch heap buffer of the probed size plus 8192 bytes, then the
fetch into that buffer, one line per returned entry, and the buffer freed. All
lines are collected in one Beacon format buffer. The entry point `go` reads
a packed mode (0 both, 1 services only, 2 drivers only, 0 when no argument
is packed) and rejects any other value. It writes a banner, runs the
selected phases, appends a trailer with both counts, emits the buffer in a
single `BeaconOutput`, and releases the buffer and the handle.

The model has five modules:

- `ScmTypes` (scm_types.dfy): the Win32 integer widths and the constants
  the file defines (`SC_MANAGER_ENUMERATE_SERVICE`, `SERVICE_WIN32`,
  `SERVICE_DRIVER`, `SERVICE_ACTIVE`, the `MODE_*` values, the 8192-byte
  margin). Also the DWORD addition behind `dwBufSize`, the mode check, the
  report lines and error messages as datatypes, and the scripted
  environment. That environment gives, per phase, the size the sizing
  call reports, the error code behind it, whether `HeapAlloc` grants the
  block, the fetch outcome, and what the uninitialised `name[512]` stack
  array holds. It also gives the `OpenSCManagerW` outcome.
- `Names` (names.dfy): the `name[512]` array of the entry loop. It covers
  the in-place conversion (`ConvertName`), which C string `%s` reads back
  from the array, and when bytes of an earlier name can or cannot leak into
  a later line.
- `Beacon` (beacon.dfy): a `Host` class standing for the collaborators
  whose state the file changes or whose calls it depends on:
  - the Beacon format buffer (`BeaconFormatAlloc`, `BeaconFormatPrintf`,
    `BeaconFormatToString`, `BeaconFormatFree`);
  - the error channel (`BeaconPrintf`) and the output channel (`BeaconOutput`);
  - the process heap (`HeapAlloc`, `HeapFree`);
  - the SCM handle (`OpenSCManagerW`, `CloseServiceHandle`) and the
    `EnumServicesStatusExW` calls.
  
  Each call is recorded in an ordered log of `Event`s. `Summary` views
  that log kind by kind, as an `Effects` record. `GetLastError`,
  `GetProcessHeap`, `WideCharToMultiByte`, `BeaconDataParse` and
  `BeaconDataShort` are not on the `Host`: their results are parameters
  of the run (see "Left out").
- `EnumSpec` (enum_spec.dfy): the specification functions. `Phase` gives
  what one `enum_scm_type` call writes, logs and returns; `Report` gives what
  `go` writes; `Run` gives every call of `go` in order. The lemmas state
  the promises of the code about them.
- `SvcEnum` (svc_enum.dfy): `enum_scm_type` and `go` as methods on the
  `Host`, in the order the C code makes its calls. Each is proved against
  the functions of `EnumSpec`.

## Model

| member | source | states |
|---|---|---|
| ScmTypes.DriverFilterIsUnion | svc_enum_bof.c:39-50 | SERVICE_DRIVER (0x0B) is the bitwise union of the kernel (0x01), file system (0x02) and recognizer (0x08) driver types |
| ScmTypes.DwordAdd | svc_enum_bof.c:180 | DWORD addition is exact below 2^32 and otherwise wraps, giving a result smaller than either operand |
| ScmTypes.BufSize | svc_enum_bof.c:179-180 | the scratch size exceeds the probed size exactly when the probed size is below 2^32 - 8192, and is then the probed size plus 8192 |
| ScmTypes.ValidateMode | svc_enum_bof.c:285-291 | a mode is accepted exactly when it lies in 0..2, and the accepted mode has that value |
| ScmTypes.ValidateModeValue | svc_enum_bof.c:64-67 | each of the three modes is accepted as itself |
| Names.CStr | svc_enum_bof.c:245 | the string `%s` prints is the longest NUL-free prefix of the array, ending at its first NUL |
| Names.ConvertName | svc_enum_bof.c:232-243 | one conversion step in place: name[0] cleared, at most 511 transcoder bytes stored from index 0, name[511] cleared, every other byte kept |
| Names.NameFitsArray | svc_enum_bof.c:239-243 | whatever the transcoder writes, the name read back has at most 511 bytes |
| Names.NameEmptyWhenNothingWritten | svc_enum_bof.c:232 | a conversion that writes nothing leaves the empty name |
| Names.NameRoundTrip | svc_enum_bof.c:233-243 | a NUL-free name shorter than 511 bytes, written with its terminator, reads back unchanged whatever the array held |
| Names.NameTruncated | svc_enum_bof.c:239-243 | a longer name reads back as its first 511 bytes |
| Names.NameIgnoresStaleBytes | svc_enum_bof.c:232-243 | when the conversion writes nothing, writes a NUL, or fills the 511-byte window, the name does not depend on the array's earlier contents |
| Names.CStrCoversNulFree | svc_enum_bof.c:245 | the string `%s` prints covers every NUL-free prefix of the array |
| Names.UnterminatedWriteShowsStaleBytes | svc_enum_bof.c:232-243 | a NUL-free write stopping one byte short of the window, as one of a name whose UTF-8 form exceeds 511 bytes can, shows byte 510 from before the write: two earlier contents give two different names |
| Beacon.Host.PrintError | svc_enum_bof.c:173-175 | one message on the error channel, logged; the sizing, allocation, fetch, invalid-mode and SCM-open errors (lines 173, 184, 204, 288, 297) all go through it |
| Beacon.Host.FormatAlloc | svc_enum_bof.c:308 | a fresh, empty format buffer of the requested capacity, logged; only when none is held |
| Beacon.Host.FormatPrintf | svc_enum_bof.c:357-359 | one line appended to the held format buffer and nothing else changed; the marker, header, entry, banner and trailer lines (lines 214, 227, 245, 311-318, 357) all go through it |
| Beacon.Host.FormatToString | svc_enum_bof.c:367 | the buffer's contents together with their length, which is the length the output call then uses |
| Beacon.Host.FormatFree | svc_enum_bof.c:371 | the held format buffer is released and the release logged |
| Beacon.Host.CloseServiceHandle | svc_enum_bof.c:372 | the open SCM handle is closed and the close logged; only the open handle may be closed |
| Beacon.Host.EnumServicesStatus | svc_enum_bof.c:159-169 | one logged EnumServicesStatusExW call on the open handle with its type filter, state filter and cbBufSize; both the probe (lines 159-169) and the fetch (lines 192-202) go through it |
| Beacon.Host.HeapAlloc | svc_enum_bof.c:181-182 | the request is logged; a granted request returns a block that was not live and makes it live, a refused one returns NULL and changes no block |
| Beacon.Host.HeapFree | svc_enum_bof.c:207 | only a live block may be freed; it stops being live and the free is logged |
| Beacon.Host.OpenScManager | svc_enum_bof.c:294-295 | the open is logged with its access right; the handle is held exactly when the SCM grants it |
| Beacon.Host.Output | svc_enum_bof.c:366-368 | one logged blob holding the first `len` units of the data |
| EnumSpec.EntryLines | svc_enum_bof.c:230-246 | the entry loop writes exactly one line per returned entry, each with the loop's prefix |
| EnumSpec.EntryLineAt | svc_enum_bof.c:230-245 | entry line i, in array order, shows the C string the array holds after the i-th conversion |
| EnumSpec.EntryNamesFit | svc_enum_bof.c:230-245 | every entry line's name has at most 511 bytes, and an entry whose conversion writes nothing still gets a line, with the empty name |
| EnumSpec.EntryNamesFromConversion | svc_enum_bof.c:230-245 | when every conversion terminates its name, line i shows exactly the conversion of entry i |
| EnumSpec.CountEntriesZero | svc_enum_bof.c:245 | a prefix count of zero means no line carries that prefix, and conversely |
| EnumSpec.CountEntryLines | svc_enum_bof.c:230-246 | the loop's lines hold exactly as many lines of its own prefix as there are entries, and none of any other prefix |
| EnumSpec.PhaseSummary | svc_enum_bof.c:158-249 | a phase's ordered calls, seen kind by kind, are the per-path view: the error it reports, its heap request and frees, its enumeration calls |
| EnumSpec.PhaseSummarySizing | svc_enum_bof.c:158-177 | a zero probed size gives the probe and one sizing error, with no heap use |
| EnumSpec.PhaseSummaryAlloc | svc_enum_bof.c:179-187 | a refused allocation gives the probe, one refused request of dwBufSize bytes and one allocation error, with no fetch and no free |
| EnumSpec.PhaseSummaryFetchFail | svc_enum_bof.c:189-209 | a failed fetch gives the probe, the granted block, the fetch with cbBufSize dwBufSize, one enumeration error and one free |
| EnumSpec.PhaseSummaryFetchOk | svc_enum_bof.c:211-249 | a successful fetch gives the probe, the granted block, the fetch and one free, and no error |
| EnumSpec.PhaseCountsItsLines | svc_enum_bof.c:211-249 | the count a phase returns equals the number of its lines with its prefix (one per entry, 0 on every failure path), and no line carries another prefix |
| EnumSpec.PhaseFailureIsSilent | svc_enum_bof.c:171-217 | an error is reported exactly when sizing, allocation or fetch fails; a failure then writes no line, returns 0 and sends exactly one message |
| EnumSpec.PhaseLinesShape | svc_enum_bof.c:211-246 | an empty fetch writes only the "0 found" marker; a non-empty one writes the header with the count, then the entry lines |
| EnumSpec.PhaseHeapDiscipline | svc_enum_bof.c:158-249 | a phase frees exactly the blocks it was granted; it allocates unless sizing failed, once, at dwBufSize; it probes first and fetches only when the allocation succeeded, with dwBufSize; all its calls use its type filter; it emits, opens and closes nothing |
| EnumSpec.PhaseViewDiscipline | svc_enum_bof.c:158-249 | the per-path view keeps that same heap and enumeration discipline |
| EnumSpec.PhaseFreesLast | svc_enum_bof.c:189-249 | once the block is granted, the fetch is the third call with cbBufSize dwBufSize, and the free is the last call on every path |
| EnumSpec.RunPhasesDiscipline | svc_enum_bof.c:325-355 | each phase of a run frees what it was granted and touches neither handle, buffer nor output; it makes enumeration calls exactly when the mode selects it, all with its own type filter |
| EnumSpec.RunCompleted | svc_enum_bof.c:293-372 | a run past the SCM open makes one open and one close, one format allocation and one free, one output carrying the report, and the phases' calls in between |
| EnumSpec.RunDefaultsToBoth | svc_enum_bof.c:272-283 | with no argument the run is that of mode 0 |
| EnumSpec.RunRejectsInvalidMode | svc_enum_bof.c:285-291 | a mode outside 0..2 gives one error message and no other call (no SCM open, allocation, enumeration or output) |
| EnumSpec.RunStopsWhenScmUnavailable | svc_enum_bof.c:293-300 | a refused SCM open gives, kind by kind, exactly that one open and its error: no close, format buffer, heap use, enumeration or output |
| EnumSpec.RunEmitsOnce | svc_enum_bof.c:361-368 | exactly one output when the mode is valid and the SCM opened, none otherwise; that output is the whole report |
| EnumSpec.RunReleasesEverything | svc_enum_bof.c:293-372 | on every path each format buffer is freed, at most one is allocated, at most one SCM open is made and the handle is closed exactly when that open succeeded, and every granted heap block is freed |
| EnumSpec.RunSummaryCases | svc_enum_bof.c:263-372 | a run's calls kind by kind on each of its three paths: invalid mode, refused SCM open, completed run |
| EnumSpec.ReportTrailerCounts | svc_enum_bof.c:357-359 | the trailer is the last line of the report, and its counts are exactly the numbers of SERVICE_NAME and DRIVER_NAME lines in it |
| EnumSpec.ReportOmitsSkippedPhase | svc_enum_bof.c:325-355 | a phase the mode skips leaves no line of its prefix and a 0 in the trailer: mode 1 has no DRIVER_NAME line, mode 2 no SERVICE_NAME line |
| EnumSpec.RunQueriesSelectedTypes | svc_enum_bof.c:325-355 | services are enumerated exactly in modes 0 and 1, drivers exactly in modes 0 and 2 |
| EnumSpec.ServicesFailureSparesDrivers | svc_enum_bof.c:135-137 | after a failed services phase, mode 0 reports the rest exactly as mode 2 does |
| EnumSpec.DriversFailureSparesServices | svc_enum_bof.c:135-137 | after a failed drivers phase, mode 0 reports the rest exactly as mode 1 does |
| EnumSpec.DriversSurviveServicesSizingFailure | svc_enum_bof.c:325-359 | services sizing fails and the drivers fetch returns three entries: exactly three DRIVER_NAME lines, no SERVICE_NAME line, trailer (0, 3) |
| SvcEnum.StackName | svc_enum_bof.c:154 | a fresh name[512] holding whatever the stack held |
| SvcEnum.AppendEntries | svc_enum_bof.c:230-246 | the loop appends exactly the entry lines of the specification and leaves the array as the conversions in order make it |
| SvcEnum.EnumScmType | svc_enum_bof.c:139-250 | enum_scm_type appends the phase's lines, logs its calls in order and returns its count exactly as `Phase` gives them, and leaves no heap block live that was not live before |
| SvcEnum.WriteReport | svc_enum_bof.c:310-359 | the format buffer ends holding exactly the report, banner to trailer, and the log gains exactly the selected phases' calls |
| SvcEnum.Enumerate | svc_enum_bof.c:293-372 | past the mode check: the log gains exactly the calls of `Enumeration`, and the host ends holding no handle, format buffer or heap block it did not hold before |
| SvcEnum.Go | svc_enum_bof.c:263-373 | go logs exactly the calls of `Run`, in order, and returns the host to its idle state with the same live heap blocks |

## Left out

- The Windows calls (`OpenSCManagerW`, `EnumServicesStatusExW`, `HeapAlloc`,
  `HeapFree`, `CloseServiceHandle`, `GetLastError`, `GetProcessHeap`) are not
  implemented. Their answers are parameters of the run: `Env` and `PhaseEnv`
  script them. The race between the sizing call and the fetch is a fetch
  outcome like any other, and can fail.
- `GetProcessHeap` and the `hHeap` argument are not modelled: the `Host`
  has one process heap.
- `HEAP_ZERO_MEMORY` and the contents of the scratch buffer are not
  modelled. The `ENUM_SERVICE_STATUS_PROCESSW` layout and the pointer cast
  at line 225 are left out too: a fetch yields a list of entries directly.
- `WideCharToMultiByte` with code page 65001 (UTF-8) is not implemented.
  Each entry carries the bytes the transcoder writes for its name
  (`ServiceEntry.converted`), with no link to `serviceName`. UTF-8 encoding
  itself is out of scope. So any write is allowed, including one that stops
  short of the 511-byte window without a NUL, which a name whose UTF-8 form
  is longer than 511 bytes can produce; `UnterminatedWriteShowsStaleBytes`
  shows what such a line then prints.
- The `dwResumeHandle` and `dwServicesReturned` resets before the fetch,
  and the second value of `dwBytesNeeded`, are not modelled. The fetch
  outcome stands for them.
- `BeaconDataParse` and `BeaconDataShort` are not modelled: `arg` is the
  short they yield when `alen > 0`.
- The `%lu`/`%s`/`%d` rendering of lines and messages is not modelled.
  Lines, messages and blobs are datatype values, and the output length is
  counted in lines.
- Beacon.Host.FormatPrintf: no capacity bound is stated for the 512 KB
  format buffer. What `BeaconFormatPrintf` does when the buffer is full
  cannot be seen from this file, so an append always succeeds.
- `enum_scm_type` is modelled as `EnumScmType` plus `StackName` (the
  `name[512]` local) and `AppendEntries` (its entry loop). `go` is modelled
  as `Go` plus `Enumerate` (everything after the mode check) and
  `WriteReport` (banner, phases, trailer). The order of calls is the C order.
- The Beacon token, injection and `toWideChar` declarations play no part in
  this file and are not modelled.
