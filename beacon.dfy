/** The collaborators the enumeration calls, as one object: the Beacon
    runtime (format buffer, error and output channels) and the parts of
    the Win32 process it touches (process heap, SCM handle, the
    EnumServicesStatusExW calls). Every call is recorded, so that what a
    run did can be stated afterwards. */
module Beacon {
  import opened ScmTypes

  /** A HeapAlloc call: the size asked for and whether a block came back. */
  datatype HeapCall = HeapCall(bytes: Dword, granted: bool)
  /** An OpenSCManagerW call: the access asked for and whether a handle came back. */
  datatype ScmCall = ScmCall(access: Dword, granted: bool)
  /** An EnumServicesStatusExW call: the type and state filter and cbBufSize. */
  datatype EnumCall = EnumCall(serviceType: Dword, serviceState: Dword, bufSize: Dword)

  /** A heap pointer: NULL or a block. */
  datatype Ptr = Null | Block(id: nat)
  /** An SC_HANDLE: NULL or the open SCM handle. */
  datatype ScHandle = NoHandle | Handle

  /** Everything a run leaves behind that outlives it, in call order:
      error messages, output blobs, heap requests and frees, SCM opens
      and closes, enumeration calls, format buffer allocations and frees. */
  datatype Effects = Effects(
    errors: seq<ErrorMsg>,
    outputs: seq<Blob>,
    heap: seq<HeapCall>,
    heapFrees: nat,
    scm: seq<ScmCall>,
    scmCloses: nat,
    enums: seq<EnumCall>,
    formats: seq<int>,
    formatFrees: nat)
  {
    /** These effects followed by `d`. */
    function Then(d: Effects): Effects
    {
      Effects(errors + d.errors, outputs + d.outputs, heap + d.heap, heapFrees + d.heapFrees,
              scm + d.scm, scmCloses + d.scmCloses, enums + d.enums,
              formats + d.formats, formatFrees + d.formatFrees)
    }
  }

  const NoEffects := Effects([], [], [], 0, [], 0, [], [], 0)

  /** Nothing appended leaves effects as they were. */
  lemma ThenNothing(l: Effects)
    ensures l.Then(NoEffects) == l
  {
  }

  /** Then is associative. */
  lemma ThenAssoc(a: Effects, b: Effects, c: Effects)
    ensures a.Then(b).Then(c) == a.Then(b.Then(c))
  {
  }

  /** One call to a collaborator, as recorded in the host's log. */
  datatype Event =
    | ErrorPrinted(msg: ErrorMsg)         // BeaconPrintf(CALLBACK_ERROR, ...)
    | OutputSent(blob: Blob)              // BeaconOutput
    | HeapRequested(heapCall: HeapCall)   // HeapAlloc
    | HeapFreed                           // HeapFree
    | ScmOpened(scmCall: ScmCall)         // OpenSCManagerW
    | ScmClosed                           // CloseServiceHandle
    | Enumerated(enumCall: EnumCall)      // EnumServicesStatusExW
    | FormatAllocated(maxsz: int)         // BeaconFormatAlloc
    | FormatFreed                         // BeaconFormatFree

  /** What one call contributes to the per-kind view. */
  function EventEffect(e: Event): Effects
  {
    match e
    case ErrorPrinted(m) => NoEffects.(errors := [m])
    case OutputSent(b) => NoEffects.(outputs := [b])
    case HeapRequested(c) => NoEffects.(heap := [c])
    case HeapFreed => NoEffects.(heapFrees := 1)
    case ScmOpened(c) => NoEffects.(scm := [c])
    case ScmClosed => NoEffects.(scmCloses := 1)
    case Enumerated(c) => NoEffects.(enums := [c])
    case FormatAllocated(n) => NoEffects.(formats := [n])
    case FormatFreed => NoEffects.(formatFrees := 1)
  }

  /** A log seen kind by kind: each kind's calls, in order. */
  function Summary(log: seq<Event>): Effects
  {
    if log == [] then NoEffects else Summary(log[..|log| - 1]).Then(EventEffect(log[|log| - 1]))
  }

  /** The view of two logs one after the other is the first view followed by the second. */
  lemma {:induction false} SummaryAppend(a: seq<Event>, b: seq<Event>)
    ensures Summary(a + b) == Summary(a).Then(Summary(b))
    decreases |b|
  {
    if b == [] {
      assert a + b == a;
      ThenNothing(Summary(a));
    } else {
      var init := b[..|b| - 1];
      assert (a + b)[..|a + b| - 1] == a + init;
      SummaryAppend(a, init);
      ThenAssoc(Summary(a), Summary(init), EventEffect(b[|b| - 1]));
    }
  }

  // ---------------------------------------------------------------
  // Proof helpers: small facts about views and sequence displays that the
  // callers state separately, so that each caller's proof stays small.
  // ---------------------------------------------------------------

  /** A single call's view. */
  lemma SummaryOne(e: Event)
    ensures Summary([e]) == EventEffect(e)
  {
    assert [e][..0] == [];
  }

  /** The view of two, three, four and five calls. */
  lemma Summary2(a: Event, b: Event)
    ensures Summary([a, b]) == EventEffect(a).Then(EventEffect(b))
  {
    SummaryOne(a);
    SummaryStep([a], b);
    assert [a] + [b] == [a, b];
    assert NoEffects.Then(EventEffect(a)) == EventEffect(a);
  }

  lemma Summary3(a: Event, b: Event, c: Event)
    ensures Summary([a, b, c]) == EventEffect(a).Then(EventEffect(b)).Then(EventEffect(c))
  {
    Summary2(a, b);
    SummaryStep([a, b], c);
    assert [a, b] + [c] == [a, b, c];
  }

  lemma Summary4(a: Event, b: Event, c: Event, d: Event)
    ensures Summary([a, b, c, d]) == EventEffect(a).Then(EventEffect(b)).Then(EventEffect(c)).Then(EventEffect(d))
  {
    Summary3(a, b, c);
    SummaryStep([a, b, c], d);
    assert [a, b, c] + [d] == [a, b, c, d];
  }

  lemma Summary5(a: Event, b: Event, c: Event, d: Event, e: Event)
    ensures Summary([a, b, c, d, e])
         == EventEffect(a).Then(EventEffect(b)).Then(EventEffect(c)).Then(EventEffect(d)).Then(EventEffect(e))
  {
    Summary4(a, b, c, d);
    SummaryStep([a, b, c, d], e);
    assert [a, b, c, d] + [e] == [a, b, c, d, e];
  }

  /** One more call adds its own view. */
  lemma SummaryStep(log: seq<Event>, e: Event)
    ensures Summary(log + [e]) == Summary(log).Then(EventEffect(e))
  {
    assert (log + [e])[..|log|] == log;
  }

  /** A sequence extended piece by piece. */
  lemma AppendAssoc<T>(a: seq<T>, b: seq<T>, c: seq<T>)
    ensures a + b + c == a + (b + c)
  {
  }

  /** One more element after a short display. */
  lemma Snoc2<T>(a: T, b: T)
    ensures [a] + [b] == [a, b]
  {
  }

  lemma Snoc3<T>(a: T, b: T, c: T)
    ensures [a, b] + [c] == [a, b, c]
  {
  }

  lemma Snoc4<T>(a: T, b: T, c: T, d: T)
    ensures [a, b, c] + [d] == [a, b, c, d]
  {
  }

  lemma Snoc5<T>(a: T, b: T, c: T, d: T, e: T)
    ensures [a, b, c, d] + [e] == [a, b, c, d, e]
  {
  }

  /** A whole sequence taken. */
  lemma TakeAll<T>(a: seq<T>)
    ensures a[..|a|] == a
  {
  }

  /** Appending nothing, or to nothing. */
  lemma AppendNothing<T>(a: seq<T>)
    ensures a + [] == a && [] + a == a
  {
  }

  // ---------------------------------------------------------------
  // Counting granted requests
  // ---------------------------------------------------------------

  /** Number of HeapAlloc calls that returned a block. */
  function Granted(calls: seq<HeapCall>): (n: nat)
    ensures n <= |calls|
  {
    if calls == [] then 0
    else Granted(calls[..|calls| - 1]) + (if calls[|calls| - 1].granted then 1 else 0)
  }

  lemma {:induction false} GrantedAppend(a: seq<HeapCall>, b: seq<HeapCall>)
    ensures Granted(a + b) == Granted(a) + Granted(b)
    decreases |b|
  {
    if b == [] {
      assert a + b == a;
    } else {
      assert (a + b)[..|a + b| - 1] == a + b[..|b| - 1];
      GrantedAppend(a, b[..|b| - 1]);
    }
  }

  class Host {
    // the format buffer: allocated or not, and the lines appended so far
    var fmtLive: bool
    var fmt: seq<Line>
    // ids of the live heap blocks, and the id the next granted block gets
    var heapLive: set<nat>
    var nextBlock: nat
    // whether the SCM handle is open
    var scmOpen: bool
    // every call made so far, in order
    var log: seq<Event>

    /** Every live block has an id handed out before. */
    ghost predicate Valid()
      reads this`heapLive, this`nextBlock
    {
      forall id :: id in heapLive ==> id < nextBlock
    }

    /** No format buffer and no SCM handle is held: the state before and
        after a run. */
    predicate Idle()
      reads this`fmtLive, this`fmt, this`scmOpen
    {
      !fmtLive && fmt == [] && !scmOpen
    }

    constructor ()
      ensures Valid() && Idle() && heapLive == {} && log == []
    {
      fmtLive, fmt := false, [];
      heapLive, nextBlock := {}, 0;
      scmOpen := false;
      log := [];
    }

    /** BeaconPrintf(CALLBACK_ERROR, ...): one message on the error channel. */
    method PrintError(m: ErrorMsg)
      modifies this`log
      ensures log == old(log) + [ErrorPrinted(m)]
    {
      log := log + [ErrorPrinted(m)];
    }

    /** BeaconFormatAlloc: a fresh, empty format buffer. */
    method FormatAlloc(maxsz: int)
      requires !fmtLive
      modifies this`fmtLive, this`fmt, this`log
      ensures fmtLive && fmt == [] && log == old(log) + [FormatAllocated(maxsz)]
    {
      fmtLive, fmt := true, [];
      log := log + [FormatAllocated(maxsz)];
    }

    /** BeaconFormatPrintf: one line appended to the format buffer. */
    method FormatPrintf(line: Line)
      requires fmtLive
      modifies this`fmt
      ensures fmt == old(fmt) + [line]
    {
      fmt := fmt + [line];
    }

    /** BeaconFormatToString: the buffer's contents and their length. */
    method FormatToString() returns (buf: seq<Line>, size: int)
      requires fmtLive
      ensures buf == fmt && size == |fmt|
    {
      buf, size := fmt, |fmt|;
    }

    /** BeaconOutput: one blob holding the first `len` units of `data`. */
    method Output(callback: int, data: seq<Line>, len: int)
      requires 0 <= len <= |data|
      modifies this`log
      ensures log == old(log) + [OutputSent(Blob(callback, data[..len]))]
    {
      log := log + [OutputSent(Blob(callback, data[..len]))];
    }

    /** BeaconFormatFree. */
    method FormatFree()
      requires fmtLive
      modifies this`fmtLive, this`fmt, this`log
      ensures !fmtLive && fmt == [] && log == old(log) + [FormatFreed]
    {
      fmtLive, fmt := false, [];
      log := log + [FormatFreed];
    }

    /** HeapAlloc; `granted` is the heap's answer. */
    method HeapAlloc(bytes: Dword, granted: bool) returns (p: Ptr)
      requires Valid()
      modifies this`heapLive, this`nextBlock, this`log
      ensures Valid()
      ensures log == old(log) + [HeapRequested(HeapCall(bytes, granted))]
      ensures granted ==> p.Block? && p.id !in old(heapLive) && heapLive == old(heapLive) + {p.id}
      ensures !granted ==> p == Null && heapLive == old(heapLive)
    {
      if granted {
        p := Block(nextBlock);
        heapLive := heapLive + {nextBlock};
        nextBlock := nextBlock + 1;
      } else {
        p := Null;
      }
      log := log + [HeapRequested(HeapCall(bytes, granted))];
    }

    /** HeapFree of a live block: freeing NULL, a dead block or a block
        twice is excluded. */
    method HeapFree(p: Ptr)
      requires Valid() && p.Block? && p.id in heapLive
      modifies this`heapLive, this`log
      ensures Valid()
      ensures heapLive == old(heapLive) - {p.id} && log == old(log) + [HeapFreed]
    {
      heapLive := heapLive - {p.id};
      log := log + [HeapFreed];
    }

    /** OpenSCManagerW; `granted` is the SCM's answer. */
    method OpenScManager(access: Dword, granted: bool) returns (h: ScHandle)
      requires !scmOpen
      modifies this`scmOpen, this`log
      ensures log == old(log) + [ScmOpened(ScmCall(access, granted))]
      ensures scmOpen == granted && h == (if granted then Handle else NoHandle)
    {
      log := log + [ScmOpened(ScmCall(access, granted))];
      scmOpen := granted;
      h := if granted then Handle else NoHandle;
    }

    /** CloseServiceHandle of the open handle. */
    method CloseServiceHandle(h: ScHandle)
      requires h == Handle && scmOpen
      modifies this`scmOpen, this`log
      ensures !scmOpen && log == old(log) + [ScmClosed]
    {
      scmOpen := false;
      log := log + [ScmClosed];
    }

    /** EnumServicesStatusExW on the open handle; its answer comes from
        the environment, so only the call itself is recorded here. */
    method EnumServicesStatus(h: ScHandle, serviceType: Dword, serviceState: Dword, bufSize: Dword)
      requires h == Handle && scmOpen
      modifies this`log
      ensures log == old(log) + [Enumerated(EnumCall(serviceType, serviceState, bufSize))]
    {
      log := log + [Enumerated(EnumCall(serviceType, serviceState, bufSize))];
    }
  }
}
