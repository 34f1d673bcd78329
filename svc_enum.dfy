/** The enumeration itself, step by step against the collaborators:
    enum_scm_type (one phase) and go (the entry point). */
module SvcEnum {
  import opened ScmTypes
  import opened Names
  import opened Beacon
  import opened EnumSpec

  /** enum_scm_type: probe the size needed for one type filter, fetch into
      a scratch heap buffer, and add the phase's lines to the format buffer
      the caller owns. The count it returns is the number of entry lines;
      each failure path sends one message to the error channel and returns
      0, leaving the caller free to run the other phase. */
  method EnumScmType(host: Host, hSCM: ScHandle, serviceType: Dword, linePrefix: string, phaseLabel: string, ph: PhaseEnv)
    returns (count: Dword)
    requires host.Valid() && host.fmtLive && host.scmOpen && hSCM == Handle
    modifies host`fmt, host`log, host`heapLive, host`nextBlock
    ensures host.Valid() && host.heapLive == old(host.heapLive)
    ensures var o := Phase(ph, serviceType, linePrefix, phaseLabel);
      host.fmt == old(host.fmt) + o.lines && host.log == old(host.log) + o.events && count == o.count
  {
    ghost var log0, fmt0 := host.log, host.fmt;
    AppendNothing(fmt0);
    var name := StackName(ph.nameSlot);

    // Sizing call: no buffer, cbBufSize 0
    host.EnumServicesStatus(hSCM, serviceType, SERVICE_ACTIVE, 0);
    ghost var probe := Enumerated(EnumCall(serviceType, SERVICE_ACTIVE, 0));
    var bytesNeeded := ph.bytesNeeded;
    if bytesNeeded == 0 {
      host.PrintError(SizingError(phaseLabel, ph.sizingError));
      AppendAssoc(log0, [probe], [ErrorPrinted(SizingError(phaseLabel, ph.sizingError))]);
      Snoc2(probe, ErrorPrinted(SizingError(phaseLabel, ph.sizingError)));
      return 0;
    }

    // Scratch buffer: the probed size plus the margin, as a DWORD
    var bufSize := DwordAdd(bytesNeeded, ALLOC_MARGIN);
    var lpBuffer := host.HeapAlloc(bufSize, ph.heapGrants);
    ghost var alloc := HeapRequested(HeapCall(bufSize, ph.heapGrants));
    AppendAssoc(log0, [probe], [alloc]);
    Snoc2(probe, alloc);
    if lpBuffer == Null {
      host.PrintError(HeapAllocError(phaseLabel, bufSize));
      AppendAssoc(log0, [probe, alloc], [ErrorPrinted(HeapAllocError(phaseLabel, bufSize))]);
      Snoc3(probe, alloc, ErrorPrinted(HeapAllocError(phaseLabel, bufSize)));
      return 0;
    }

    // Fetch call into the scratch buffer
    host.EnumServicesStatus(hSCM, serviceType, SERVICE_ACTIVE, bufSize);
    ghost var fetch := Enumerated(EnumCall(serviceType, SERVICE_ACTIVE, bufSize));
    AppendAssoc(log0, [probe, alloc], [fetch]);
    Snoc3(probe, alloc, fetch);
    if ph.fetch.FetchFail? {
      host.PrintError(EnumError(phaseLabel, ph.fetch.lastError));
      ghost var err := ErrorPrinted(EnumError(phaseLabel, ph.fetch.lastError));
      AppendAssoc(log0, [probe, alloc, fetch], [err]);
      Snoc4(probe, alloc, fetch, err);
      host.HeapFree(lpBuffer);
      AppendAssoc(log0, [probe, alloc, fetch, err], [HeapFreed]);
      Snoc5(probe, alloc, fetch, err, HeapFreed);
      return 0;
    }
    var entries := ph.fetch.entries;
    var returned: Dword := |entries|;

    if returned == 0 {
      host.FormatPrintf(ZeroFound(phaseLabel));
      host.HeapFree(lpBuffer);
      AppendAssoc(log0, [probe, alloc, fetch], [HeapFreed]);
      Snoc4(probe, alloc, fetch, HeapFreed);
      return 0;
    }

    host.FormatPrintf(PhaseHeader(phaseLabel, returned));
    AppendEntries(host, name, entries, linePrefix);
    AppendAssoc(fmt0, [PhaseHeader(phaseLabel, returned)], EntryLines(linePrefix, entries, ph.nameSlot));

    host.HeapFree(lpBuffer);
    AppendAssoc(log0, [probe, alloc, fetch], [HeapFreed]);
    Snoc4(probe, alloc, fetch, HeapFreed);
    return returned;
  }

  /** The name[NAME_SIZE] local of enum_scm_type, holding whatever the
      stack held. */
  method StackName(slot: NameSlot) returns (name: array<Byte>)
    ensures fresh(name) && name[..] == slot
  {
    name := new Byte[NAME_SIZE](j => if 0 <= j < |slot| then slot[j] else 0);
  }

  /** The entry loop of enum_scm_type: each returned name is converted
      into name[] and appended to the format buffer as "<prefix>: <name>". */
  method AppendEntries(host: Host, name: array<Byte>, entries: EntryList, linePrefix: string)
    requires host.fmtLive && name.Length == NAME_SIZE
    modifies host`fmt, name
    ensures host.fmt == old(host.fmt) + EntryLines(linePrefix, entries, old(name[..]))
    ensures name[..] == SlotAfter(old(name[..]), entries)
  {
    ghost var slot: NameSlot := name[..];
    ghost var fmt0 := host.fmt;
    var returned: Dword := |entries|;
    var i: Dword := 0;
    while i < returned
      invariant 0 <= i <= returned
      invariant name[..] == SlotAfter(slot, entries[..i])
      invariant host.fmt == fmt0 + EntryLines(linePrefix, entries[..i], slot)
    {
      ConvertName(name, entries[i].converted);
      assert entries[..i + 1][..i] == entries[..i];
      host.FormatPrintf(Entry(linePrefix, CStr(name[..])));
      AppendAssoc(fmt0, EntryLines(linePrefix, entries[..i], slot), [Entry(linePrefix, CStr(name[..]))]);
      i := i + 1;
    }
    assert entries[..returned] == entries;
  }

  /** The report part of go: the banner for the mode, the phases the mode
      selects, each on the shared SCM handle, then the trailer with both
      counts. */
  method WriteReport(host: Host, hSCM: ScHandle, mode: Short, env: Env)
    requires MODE_BOTH <= mode <= MODE_DRV_ONLY
    requires host.Valid() && host.fmtLive && host.fmt == [] && host.scmOpen && hSCM == Handle
    modifies host`fmt, host`log, host`heapLive, host`nextBlock
    ensures host.Valid() && host.heapLive == old(host.heapLive)
    ensures var m := ValidateMode(mode).value;
      host.fmt == Report(m, env)
      && host.log == old(host.log) + (ServicesPhase(m, env).events + DriversPhase(m, env).events)
  {
    ghost var m := ValidateMode(mode).value;
    ghost var log0 := host.log;
    var nSvc: Dword := 0;
    var nDrv: Dword := 0;

    if mode == MODE_BOTH {
      host.FormatPrintf(Banner(Both));
    } else if mode == MODE_SVC_ONLY {
      host.FormatPrintf(Banner(ServicesOnly));
    } else {
      host.FormatPrintf(Banner(DriversOnly));
    }
    AppendNothing([Banner(m)]);

    // Services phase (SERVICE_WIN32)
    ghost var svc := ServicesPhase(m, env);
    ghost var fmt1 := host.fmt;
    if mode == MODE_BOTH || mode == MODE_SVC_ONLY {
      nSvc := EnumScmType(host, hSCM, SERVICE_WIN32, SERVICE_PREFIX, SERVICES_LABEL, env.services);
    } else {
      AppendNothing(log0);
      AppendNothing(fmt1);
    }

    // Drivers phase (SERVICE_DRIVER)
    ghost var drv := DriversPhase(m, env);
    ghost var fmt2, log2 := host.fmt, host.log;
    if mode == MODE_BOTH || mode == MODE_DRV_ONLY {
      nDrv := EnumScmType(host, hSCM, SERVICE_DRIVER, DRIVER_PREFIX, DRIVERS_LABEL, env.drivers);
    } else {
      AppendNothing(log2);
      AppendNothing(fmt2);
    }
    AppendAssoc(log0, svc.events, drv.events);

    host.FormatPrintf(Trailer(nSvc, nDrv));
  }

  /** The part of go after the mode check: open the SCM once, run the
      selected phases into one format buffer, emit the buffer in one
      BeaconOutput and release the buffer and the handle. */
  method Enumerate(host: Host, mode: Short, env: Env)
    requires MODE_BOTH <= mode <= MODE_DRV_ONLY
    requires host.Valid() && host.Idle()
    modifies host
    ensures host.Valid() && host.Idle() && host.heapLive == old(host.heapLive)
    ensures host.log == old(host.log) + Enumeration(ValidateMode(mode).value, env)
  {
    ghost var m := ValidateMode(mode).value;
    ghost var log0 := host.log;

    // The SCM handle both phases share
    var hSCM := host.OpenScManager(SC_MANAGER_ENUMERATE_SERVICE, env.scmGranted);
    if hSCM == NoHandle {
      host.PrintError(OpenScmError(env.openError));
      AppendAssoc(log0, [OpenCall(env)], [ErrorPrinted(OpenScmError(env.openError))]);
      Snoc2(OpenCall(env), ErrorPrinted(OpenScmError(env.openError)));
      return;
    }

    // The format buffer both phases append to
    host.FormatAlloc(FORMAT_CAPACITY);
    AppendAssoc(log0, [OpenCall(env)], [FormatAllocated(FORMAT_CAPACITY)]);
    Snoc2(OpenCall(env), FormatAllocated(FORMAT_CAPACITY));

    WriteReport(host, hSCM, mode, env);
    ghost var phases := ServicesPhase(m, env).events + DriversPhase(m, env).events;
    AppendAssoc(log0, Start(env), phases);
    ghost var log3 := host.log;

    // One BeaconOutput of the whole buffer, with the length FormatToString reports
    var outLen := 0;
    var outBuf;
    outBuf, outLen := host.FormatToString();
    TakeAll(outBuf);
    host.Output(CALLBACK_OUTPUT, outBuf, outLen);

    // Release the format buffer and the handle
    host.FormatFree();
    host.CloseServiceHandle(hSCM);
    ghost var out := OutputSent(Blob(CALLBACK_OUTPUT, Report(m, env)));
    AppendAssoc(log3, [out], [FormatFreed]);
    Snoc2(out, FormatFreed);
    AppendAssoc(log3, [out, FormatFreed], [ScmClosed]);
    Snoc3(out, FormatFreed, ScmClosed);
    AppendAssoc(log0, Start(env) + phases, Finish(Report(m, env)));
  }

  /** go: read the mode (0 when no argument is packed), reject a mode
      outside 0..2 with one error message, and otherwise enumerate. */
  method Go(host: Host, alen: int, arg: Short, env: Env)
    requires host.Valid() && host.Idle()
    modifies host
    ensures host.Valid() && host.Idle() && host.heapLive == old(host.heapLive)
    ensures host.log == old(host.log) + Run(alen, arg, env)
  {
    var mode: Short := MODE_BOTH;

    // The packed short when there is an argument; `arg` is what BeaconDataShort returns
    if alen > 0 {
      mode := arg;
    }

    if mode < MODE_BOTH || mode > MODE_DRV_ONLY {
      host.PrintError(InvalidModeError(mode));
      return;
    }

    Enumerate(host, mode, env);
  }
}
