/*
 * The PC-sampling helpers: thin wrappers that fill a vendor parameter record,
 * hand it to the transport and return what the transport wrote back, plus
 * the buffer allocator and the source-correlation query that copies and then
 * releases the vendor-allocated file and directory names.
 *
 * A wrapper that asks for strict checking and receives a failure returns
 * `Err` and does nothing further; in lenient mode the failure status is
 * ignored and the wrapper goes on with whatever the vendor wrote.
 */
module CuptiPCSamplingUtils {
  import opened CuptiApi

  // ---------------------------------------------------------------------
  // Queries returning a vendor-written out-field
  // ---------------------------------------------------------------------

  /** The checksum of a binary image: the value the vendor writes into an
      out-field the wrapper set to 0. */
  method GetCubinCrc(api: PCSamplingApi, cubin: seq<byte>, size: nat, reply: Reply<uint64>)
    returns (r: Result<uint64>)
    modifies api
    ensures api.log == old(api.log)
      + [GetCubinCrcCall(CubinCrcParams(GetCubinCrcParamsSize, size, cubin, 0), true)]
    ensures api.heap == old(api.heap) && api.nextAddr == old(api.nextAddr)
    ensures api.events == old(api.events)
    ensures r.Err? <==> !reply.ok
    ensures r.Ok? ==> r.value == Written(reply.out, 0)
  {
    var params := CubinCrcParams(GetCubinCrcParamsSize, size, cubin, 0);
    var ok, written := api.GetCubinCrc(params, true, reply);
    if !ok {
      return Err;
    }
    return Ok(written.cubinCrc);
  }

  /** The number of stall reasons of a context: the value the vendor writes
      through a pointer to a local the wrapper set to 0. */
  method GetNumStallReasons(api: PCSamplingApi, context: Context, reply: Reply<nat>)
    returns (r: Result<nat>)
    modifies api
    ensures api.log == old(api.log)
      + [GetNumStallReasonsCall(NumStallReasonsParams(GetNumStallReasonsParamsSize, context, 0), true)]
    ensures api.heap == old(api.heap) && api.nextAddr == old(api.nextAddr)
    ensures api.events == old(api.events)
    ensures r.Err? <==> !reply.ok
    ensures r.Ok? ==> r.value == Written(reply.out, 0)
  {
    var numStallReasons := 0;
    var params := NumStallReasonsParams(GetNumStallReasonsParamsSize, context, numStallReasons);
    var ok, written := api.PCSamplingGetNumStallReasons(params, true, reply);
    if !ok {
      return Err;
    }
    numStallReasons := written.numStallReasons;
    return Ok(numStallReasons);
  }

  // ---------------------------------------------------------------------
  // Source correlation
  // ---------------------------------------------------------------------

  /** The (line number, file name, directory name) a correlation query yields;
      it holds copies only, never a vendor pointer. */
  datatype Correlation = Correlation(lineNumber: uint32, fileName: string, dirName: string)

  /** A reported name, or the empty string when the vendor reported none. */
  function NameOrEmpty(name: Option<string>): string
  {
    match name
    case Some(s) => s
    case None => ""
  }

  /** What the wrapper does with vendor memory once the vendor has answered:
      copy the file name, copy the directory name, free the file name, free
      the directory name, each step only for a non-NULL pointer. */
  function ReleaseEvents(file: Ptr, dir: Ptr): seq<MemoryEvent>
  {
    (if file.Addr? then [Copied(file.addr)] else []) +
    (if dir.Addr? then [Copied(dir.addr)] else []) +
    (if file.Addr? then [Freed(file.addr)] else []) +
    (if dir.Addr? then [Freed(dir.addr)] else [])
  }

  /** `getSassToSourceCorrelation<checkErrors>`: the only wrapper that
      forwards the caller's checking mode. */
  method GetSassToSourceCorrelation(api: PCSamplingApi, checkErrors: bool, functionName: string,
                                    pcOffset: uint64, cubin: seq<byte>, cubinSize: nat,
                                    reply: SassReply)
    returns (r: Result<Correlation>)
    requires api.Valid()
    modifies api
    ensures api.Valid()
    ensures api.log == old(api.log) + [GetSassToSourceCall(
      SassToSourceParams(GetSassToSourceCorrelationParamsSize, cubin, functionName, cubinSize,
                         0, pcOffset, Null, Null), checkErrors)]
    ensures r.Err? <==> checkErrors && !reply.ok
    ensures r.Err? ==> api.events == old(api.events)
    ensures r.Err? ==> var (file, dir) := NameAddresses(old(api.nextAddr), reply);
      api.heap == Store(Store(old(api.heap), file, reply.fileName), dir, reply.dirName)
    ensures r.Ok? ==> r.value == Correlation(Written(reply.lineNumber, 0),
                                             NameOrEmpty(reply.fileName),
                                             NameOrEmpty(reply.dirName))
    ensures r.Ok? ==> api.heap == old(api.heap)
    ensures r.Ok? ==> var (file, dir) := NameAddresses(old(api.nextAddr), reply);
      api.events == old(api.events) + ReleaseEvents(file, dir)
  {
    var params := SassToSourceParams(GetSassToSourceCorrelationParamsSize, cubin, functionName,
                                     cubinSize, 0, pcOffset, Null, Null);
    ghost var heap0, events0 := api.heap, api.events;
    ghost var (file, dir) := NameAddresses(api.nextAddr, reply);
    var ok, written := api.GetSassToSourceCorrelation(params, checkErrors, reply);
    if checkErrors && !ok {
      return Err;
    }
    assert written.fileName == file && written.dirName == dir;
    var fileName := "";
    if written.fileName.Addr? {
      fileName := api.CopyString(written.fileName);
    }
    var dirName := "";
    if written.dirName.Addr? {
      dirName := api.CopyString(written.dirName);
    }
    if written.fileName.Addr? {
      api.Free(written.fileName);
    }
    if written.dirName.Addr? {
      api.Free(written.dirName);
    }
    assert api.heap == heap0 by {
      assert file.Addr? ==> file.addr !in heap0;
      assert dir.Addr? ==> dir.addr !in heap0;
    }
    return Ok(Correlation(written.lineNumber, fileName, dirName));
  }

  /** Whatever the vendor reports, each name it allocated is freed exactly
      once, and only after it was copied; an unreported name (a NULL pointer)
      is never freed, and neither is any other address. */
  lemma ReleaseDiscipline(base: nat, reply: SassReply)
    ensures var (file, dir) := NameAddresses(base, reply);
      (file.Addr? <==> reply.fileName.Some?) && (dir.Addr? <==> reply.dirName.Some?)
    ensures var (file, dir) := NameAddresses(base, reply);
      forall a :: Freed(a) in ReleaseEvents(file, dir) <==> file == Addr(a) || dir == Addr(a)
    ensures var (file, dir) := NameAddresses(base, reply);
      var events := ReleaseEvents(file, dir);
      forall i, j :: 0 <= i < j < |events| && events[i].Freed? ==> events[j] != events[i]
    ensures var (file, dir) := NameAddresses(base, reply);
      var events := ReleaseEvents(file, dir);
      forall i :: 0 <= i < |events| && events[i].Freed? ==> Copied(events[i].addr) in events[..i]
  {
    var (file, dir) := NameAddresses(base, reply);
    var events := ReleaseEvents(file, dir);
    if file.Addr? && dir.Addr? {
      assert events == [Copied(file.addr), Copied(dir.addr), Freed(file.addr), Freed(dir.addr)];
      assert events[..2] == [Copied(file.addr), Copied(dir.addr)];
      assert events[..3] == [Copied(file.addr), Copied(dir.addr), Freed(file.addr)];
    } else if file.Addr? {
      assert events == [Copied(file.addr), Freed(file.addr)];
      assert events[..1] == [Copied(file.addr)];
    } else if dir.Addr? {
      assert events == [Copied(dir.addr), Freed(dir.addr)];
      assert events[..1] == [Copied(dir.addr)];
    } else {
      assert events == [];
    }
  }

  // ---------------------------------------------------------------------
  // Sampling buffer
  // ---------------------------------------------------------------------

  /** A PC record whose every field other than `stallReason` is zero or NULL. */
  predicate ZeroedEntry(e: PCData)
  {
    e.(stallReason := null) == ZeroPCData
  }

  /** `allocPCSamplingData`: a buffer for `collectNumPCs` PC records, every
      record zeroed and owning a fresh zeroed array of `numValidStallReasons`
      stall-reason counters. Allocation is taken to succeed. */
  method AllocPCSamplingData(collectNumPCs: nat, numValidStallReasons: nat)
    returns (data: PCSamplingData)
    ensures fresh(data) && fresh(data.pPcData)
    ensures data.size == SizeOfPCSamplingData && data.collectNumPcs == collectNumPCs
    ensures data.totalSamples == 0 && data.droppedSamples == 0
    ensures data.totalNumPcs == 0 && data.remainingNumPcs == 0 && data.rangeId == 0
    ensures data.pPcData.Length == collectNumPCs
    ensures forall i :: 0 <= i < collectNumPCs ==>
      ZeroedEntry(data.pPcData[i]) && data.pPcData[i].stallReason != null &&
      fresh(data.pPcData[i].stallReason) &&
      data.pPcData[i].stallReason.Length == numValidStallReasons &&
      forall j :: 0 <= j < numValidStallReasons ==> data.pPcData[i].stallReason[j] == ZeroStallReason
    ensures forall i, k :: 0 <= i < k < collectNumPCs ==>
      data.pPcData[i].stallReason != data.pPcData[k].stallReason
  {
    var pPcData := new PCData[collectNumPCs](_ => ZeroPCData);
    data := new PCSamplingData(SizeOfPCSamplingData, collectNumPCs, 0, 0, 0, 0, 0, pPcData);
    for i := 0 to collectNumPCs
      invariant data.size == SizeOfPCSamplingData && data.collectNumPcs == collectNumPCs
      invariant data.totalSamples == 0 && data.droppedSamples == 0
      invariant data.totalNumPcs == 0 && data.remainingNumPcs == 0 && data.rangeId == 0
      invariant data.pPcData == pPcData
      invariant forall m :: 0 <= m < collectNumPCs ==> ZeroedEntry(pPcData[m])
      invariant forall m :: i <= m < collectNumPCs ==> pPcData[m].stallReason == null
      invariant forall m :: 0 <= m < i ==>
        pPcData[m].stallReason != null && fresh(pPcData[m].stallReason) &&
        pPcData[m].stallReason.Length == numValidStallReasons &&
        forall j :: 0 <= j < numValidStallReasons ==> pPcData[m].stallReason[j] == ZeroStallReason
      invariant forall m, k :: 0 <= m < k < i ==> pPcData[m].stallReason != pPcData[k].stallReason
    {
      var stallReason := new StallReason[numValidStallReasons](_ => ZeroStallReason);
      pPcData[i] := pPcData[i].(stallReason := stallReason);
    }
  }

  // ---------------------------------------------------------------------
  // Session control
  // ---------------------------------------------------------------------

  method EnablePCSampling(api: PCSamplingApi, context: Context, reply: Reply<()>)
    returns (r: Result<()>)
    modifies api
    ensures api.log == old(api.log) + [EnableCall(ContextParams(EnableParamsSize, context), true)]
    ensures api.heap == old(api.heap) && api.nextAddr == old(api.nextAddr)
    ensures api.events == old(api.events)
    ensures r.Ok? <==> reply.ok
  {
    var ok := api.PCSamplingEnable(ContextParams(EnableParamsSize, context), true, reply);
    r := if ok then Ok(()) else Err;
  }

  method StartPCSampling(api: PCSamplingApi, context: Context, reply: Reply<()>)
    returns (r: Result<()>)
    modifies api
    ensures api.log == old(api.log) + [StartCall(ContextParams(StartParamsSize, context), true)]
    ensures api.heap == old(api.heap) && api.nextAddr == old(api.nextAddr)
    ensures api.events == old(api.events)
    ensures r.Ok? <==> reply.ok
  {
    var ok := api.PCSamplingStart(ContextParams(StartParamsSize, context), true, reply);
    r := if ok then Ok(()) else Err;
  }

  method StopPCSampling(api: PCSamplingApi, context: Context, reply: Reply<()>)
    returns (r: Result<()>)
    modifies api
    ensures api.log == old(api.log) + [StopCall(ContextParams(StopParamsSize, context), true)]
    ensures api.heap == old(api.heap) && api.nextAddr == old(api.nextAddr)
    ensures api.events == old(api.events)
    ensures r.Ok? <==> reply.ok
  {
    var ok := api.PCSamplingStop(ContextParams(StopParamsSize, context), true, reply);
    r := if ok then Ok(()) else Err;
  }

  /** Hands the caller's buffer to the vendor by reference, so that the vendor
      fills it in place; the wrapper itself writes nothing into it. */
  method GetPCSamplingData(api: PCSamplingApi, context: Context, pcSamplingData: PCSamplingData,
                           reply: Reply<()>)
    returns (r: Result<()>)
    modifies api, pcSamplingData, pcSamplingData.pPcData, StallArrays(pcSamplingData.pPcData)
    ensures api.log == old(api.log)
      + [GetDataCall(GetDataParams(GetDataParamsSize, context, pcSamplingData), true)]
    ensures api.heap == old(api.heap) && api.nextAddr == old(api.nextAddr)
    ensures api.events == old(api.events)
    ensures Preserved(pcSamplingData, old(pcSamplingData.size), old(pcSamplingData.collectNumPcs),
                      old(pcSamplingData.pPcData))
    ensures r.Ok? <==> reply.ok
  {
    var params := GetDataParams(GetDataParamsSize, context, pcSamplingData);
    var ok := api.PCSamplingGetData(params, true, reply);
    r := if ok then Ok(()) else Err;
  }

  /** Passes the caller's attribute array itself (its storage, not a copy)
      together with its length; the vendor may write into it. */
  method SetConfigurationAttribute(api: PCSamplingApi, context: Context,
                                   configurationInfos: array<ConfigurationInfo>, reply: Reply<()>)
    returns (r: Result<()>)
    modifies api, configurationInfos
    ensures api.log == old(api.log) + [SetConfigurationCall(
      ConfigurationInfoParams(ConfigurationInfoParamsSize, context, configurationInfos.Length,
                              configurationInfos), true)]
    ensures api.heap == old(api.heap) && api.nextAddr == old(api.nextAddr)
    ensures api.events == old(api.events)
    ensures r.Ok? <==> reply.ok
  {
    var params := ConfigurationInfoParams(ConfigurationInfoParamsSize, context,
                                          configurationInfos.Length, configurationInfos);
    var ok := api.PCSamplingSetConfigurationAttribute(params, true, reply);
    r := if ok then Ok(()) else Err;
  }
}
