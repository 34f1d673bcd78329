/** Values and constants shared by the service/driver enumeration:
    the Win32 integer widths, the SCM constants the code defines for
    itself, the enumeration modes, the report lines and the error
    messages, and the scripted environment that stands for the OS. */
module ScmTypes {

  datatype Option<T> = None | Some(value: T)

  /** Unsigned 32-bit DWORD. */
  type Dword = x: int | 0 <= x < 0x1_0000_0000
  /** Signed 16-bit short, as BeaconDataShort returns it. */
  type Short = x: int | -0x8000 <= x < 0x8000
  type Byte = x: int | 0 <= x < 0x100
  /** One UTF-16 code unit of a wide (WCHAR) string. */
  type WChar = x: int | 0 <= x < 0x1_0000
  type WideName = seq<WChar>

  const DWORD_LIMIT: int := 0x1_0000_0000

  // Access right and filters passed to OpenSCManagerW / EnumServicesStatusExW
  const SC_MANAGER_ENUMERATE_SERVICE: Dword := 0x0004
  const SERVICE_WIN32: Dword := 0x30
  const SERVICE_KERNEL_DRIVER: Dword := 0x01
  const SERVICE_FILE_SYSTEM_DRIVER: Dword := 0x02
  const SERVICE_RECOGNIZER_DRIVER: Dword := 0x08
  const SERVICE_DRIVER: Dword := 0x0B
  const SERVICE_ACTIVE: Dword := 0x01
  const SC_ENUM_PROCESS_INFO: Dword := 0

  const MODE_BOTH: Short := 0
  const MODE_SVC_ONLY: Short := 1
  const MODE_DRV_ONLY: Short := 2

  const CALLBACK_OUTPUT: int := 0x00
  const CALLBACK_ERROR: int := 0x0d

  /** Bytes added to the probed size before allocating the scratch buffer. */
  const ALLOC_MARGIN: Dword := 8192
  /** Capacity requested for the shared format buffer (512 KB). */
  const FORMAT_CAPACITY: int := 512 * 1024
  /** Size of the local name[] array the wide names are converted into. */
  const NAME_SIZE: int := 512

  const SERVICE_PREFIX: string := "SERVICE_NAME"
  const DRIVER_PREFIX: string := "DRIVER_NAME"
  const SERVICES_LABEL: string := "services"
  const DRIVERS_LABEL: string := "drivers"

  /** The driver filter is the union of the three driver type bits. */
  lemma DriverFilterIsUnion()
    ensures SERVICE_DRIVER as bv32
         == SERVICE_KERNEL_DRIVER as bv32 | SERVICE_FILE_SYSTEM_DRIVER as bv32 | SERVICE_RECOGNIZER_DRIVER as bv32
  {
  }

  /** DWORD addition: wraps modulo 2^32. */
  function DwordAdd(a: Dword, b: Dword): (r: Dword)
    ensures a + b < DWORD_LIMIT ==> r == a + b
    ensures a + b >= DWORD_LIMIT ==> r == a + b - DWORD_LIMIT && r < a && r < b
  {
    (a + b) % DWORD_LIMIT
  }

  /** dwBufSize: the probed size plus the margin, in DWORD arithmetic. */
  function BufSize(bytesNeeded: Dword): (r: Dword)
    ensures bytesNeeded < DWORD_LIMIT - ALLOC_MARGIN <==> r > bytesNeeded
    ensures bytesNeeded < DWORD_LIMIT - ALLOC_MARGIN ==> r == bytesNeeded + ALLOC_MARGIN
  {
    DwordAdd(bytesNeeded, ALLOC_MARGIN)
  }

  datatype Mode = Both | ServicesOnly | DriversOnly

  /** The short value that selects each mode. */
  function ModeValue(m: Mode): Short
  {
    match m
    case Both => MODE_BOTH
    case ServicesOnly => MODE_SVC_ONLY
    case DriversOnly => MODE_DRV_ONLY
  }

  /** The range check of the mode argument; a value outside 0..2 is rejected. */
  function ValidateMode(v: Short): (r: Option<Mode>)
    ensures r.Some? <==> MODE_BOTH <= v <= MODE_DRV_ONLY
    ensures r.Some? ==> ModeValue(r.value) == v
  {
    if v < MODE_BOTH || v > MODE_DRV_ONLY then None
    else if v == MODE_BOTH then Some(Both)
    else if v == MODE_SVC_ONLY then Some(ServicesOnly)
    else Some(DriversOnly)
  }

  lemma ValidateModeValue(m: Mode)
    ensures ValidateMode(ModeValue(m)) == Some(m)
  {
  }

  predicate RunsServices(m: Mode) { m == Both || m == ServicesOnly }
  predicate RunsDrivers(m: Mode) { m == Both || m == DriversOnly }

  /** One line appended to the format buffer (rendering is not modelled). */
  datatype Line =
    | Banner(mode: Mode)                          // "--- BOF ... Enumeration ---"
    | PhaseHeader(phase: string, entries: Dword)  // "--- <label> (<n> entries) ---"
    | ZeroFound(phase: string)                    // "--- <label>: 0 found ---"
    | Entry(prefix: string, name: seq<Byte>)      // "<prefix>: <name>"
    | Trailer(services: Dword, drivers: Dword)    // "--- END (services: n, drivers: m) ---"

  /** One message sent on the error channel (BeaconPrintf with CALLBACK_ERROR). */
  datatype ErrorMsg =
    | SizingError(phase: string, lastError: Dword)
    | HeapAllocError(phase: string, bytes: Dword)
    | EnumError(phase: string, lastError: Dword)
    | InvalidModeError(mode: Short)
    | OpenScmError(lastError: Dword)

  /** One BeaconOutput call: its callback type and the data it carries. */
  datatype Blob = Blob(callback: int, data: seq<Line>)

  /** One returned ENUM_SERVICE_STATUS_PROCESSW entry, as far as the code
      reads it: the bytes WideCharToMultiByte writes when converting its
      lpServiceName (only the first NAME_SIZE - 1 of them reach the
      array). `serviceName` only records which wide name was converted;
      no operation reads it, since the transcoder is not modelled. */
  datatype ServiceEntry = ServiceEntry(serviceName: WideName, converted: seq<Byte>)

  /** A result array of EnumServicesStatusExW: its count is a DWORD. */
  type EntryList = s: seq<ServiceEntry> | |s| < DWORD_LIMIT

  /** Contents of a name[NAME_SIZE] array. */
  type NameSlot = s: seq<Byte> | |s| == NAME_SIZE witness seq(NAME_SIZE, i => 0)

  /** The second EnumServicesStatusExW call: failure with GetLastError's
      value, or the entries it returned. */
  datatype Fetch = FetchFail(lastError: Dword) | FetchOk(entries: EntryList)

  /** What the OS does during one phase: the size the sizing call reports
      and the error code behind it, whether HeapAlloc grants the request,
      the outcome of the fetch call, and what the uninitialised name[]
      stack array holds when the phase starts. */
  datatype PhaseEnv = PhaseEnv(
    bytesNeeded: Dword,
    sizingError: Dword,
    heapGrants: bool,
    fetch: Fetch,
    nameSlot: NameSlot)

  /** The environment of one run: the OpenSCManagerW outcome and the
      script of the services phase and of the drivers phase. */
  datatype Env = Env(
    scmGranted: bool,
    openError: Dword,
    services: PhaseEnv,
    drivers: PhaseEnv)
}
