/*
 * The vendor profiling transport (the `cupti::` dispatch layer), seen only
 * through the calls the wrappers make to it.
 *
 * The transport itself is not part of this model. It is represented here by
 * two objects that record every call they receive and keep the little state
 * the wrappers can observe: the armed flag of each (subscriber, domain,
 * callback id) for the callback API, and the vendor-owned string memory for
 * the PC-sampling API. What the vendor writes into an out-field is supplied
 * by the caller as a `Reply` value, so that every possible vendor answer is
 * covered by the contracts.
 */
module CuptiApi {

  datatype Option<T> = None | Some(value: T)

  /** The outcome of a wrapper: `Err` stands for a strict-mode transport
      failure, after which the wrapper does not continue. */
  datatype Result<T> = Ok(value: T) | Err

  type byte = x: int | 0 <= x < 0x100
  type uint32 = x: int | 0 <= x < 0x1_0000_0000
  type uint64 = x: int | 0 <= x < 0x1_0000_0000_0000_0000

  /** Opaque handles owned by the caller; the core never creates or destroys them. */
  type Subscriber = nat
  type Context = nat

  /** A C pointer into vendor-allocated memory, or NULL. */
  datatype Ptr = Null | Addr(addr: nat)

  // ---------------------------------------------------------------------
  // Callback API
  // ---------------------------------------------------------------------

  /** The vendor's callback domains used by the catalogs. */
  datatype Domain = RuntimeApi | DriverApi | Resource | Nvtx

  /** A callback identifier (`CUpti_CallbackId`, an unsigned 32-bit value). */
  type CallbackId = uint32

  /** The armed-state key: callbacks are armed per subscriber, domain and id. */
  datatype Key = Key(subscriber: Subscriber, domain: Domain, cbid: CallbackId)

  /** One `enableCallback` call as issued: the 0/1 flag, the subscriber, the
      domain, the callback id, and whether strict error checking was asked for. */
  datatype EnableRequest = EnableRequest(
    enable: uint32, subscriber: Subscriber, domain: Domain, cbid: CallbackId, checkErrors: bool)

  /** Whether a key is armed; a key the vendor never saw is not. */
  predicate Armed(armed: map<Key, bool>, k: Key)
  {
    k in armed && armed[k]
  }

  class CallbackApi {
    /** Every `enableCallback` call received, in order, including failing ones. */
    var trace: seq<EnableRequest>
    /** The vendor's per-key armed state. */
    var armed: map<Key, bool>
    /** The (domain, id) pairs this driver version rejects. */
    const unsupported: set<(Domain, CallbackId)>

    constructor (unsupported: set<(Domain, CallbackId)>)
      ensures trace == [] && armed == map[] && this.unsupported == unsupported
    {
      trace := [];
      armed := map[];
      this.unsupported := unsupported;
    }

    /** `cupti::enableCallback<checkErrors>`: a non-zero flag arms the
        callback, zero disarms it; a rejected id changes nothing. */
    method EnableCallback(enable: uint32, subscriber: Subscriber, domain: Domain,
                          cbid: CallbackId, checkErrors: bool)
      returns (ok: bool)
      modifies this
      ensures trace == old(trace) + [EnableRequest(enable, subscriber, domain, cbid, checkErrors)]
      ensures ok <==> (domain, cbid) !in unsupported
      ensures armed == if ok then old(armed)[Key(subscriber, domain, cbid) := enable != 0]
                       else old(armed)
    {
      trace := trace + [EnableRequest(enable, subscriber, domain, cbid, checkErrors)];
      ok := (domain, cbid) !in unsupported;
      if ok {
        armed := armed[Key(subscriber, domain, cbid) := enable != 0];
      }
    }
  }

  // ---------------------------------------------------------------------
  // PC-sampling API: records, buffers and vendor memory
  // ---------------------------------------------------------------------

  /** The size tag a parameter record or buffer carries in its first field;
      one tag per record kind (the byte counts themselves are left out). */
  datatype SizeTag =
    | GetCubinCrcParamsSize
    | GetNumStallReasonsParamsSize
    | GetSassToSourceCorrelationParamsSize
    | EnableParamsSize
    | StartParamsSize
    | StopParamsSize
    | GetDataParamsSize
    | ConfigurationInfoParamsSize
    | SizeOfPCSamplingData

  /** One stall-reason counter of a PC record. */
  datatype StallReason = StallReason(pcSamplingStallReasonIndex: uint32, samples: uint32)

  const ZeroStallReason := StallReason(0, 0)

  /** One PC record of a sampling buffer; `stallReason` points to its own
      array of counters (NULL in a freshly zeroed record). */
  datatype PCData = PCData(
    size: nat, cubinCrc: uint64, pcOffset: uint64, functionIndex: uint32,
    functionName: Ptr, stallReasonCount: nat, stallReason: array?<StallReason>)

  /** A PC record as `calloc` leaves it: every field zero or NULL. */
  const ZeroPCData := PCData(0, 0, 0, 0, Null, 0, null)

  /** A sampling-configuration attribute (kind and value). */
  datatype ConfigurationInfo = ConfigurationInfo(attributeType: uint32, value: uint64)

  /** The caller-owned sampling buffer the vendor fills in place. */
  class PCSamplingData {
    var size: SizeTag
    var collectNumPcs: nat
    var totalSamples: nat
    var droppedSamples: nat
    var totalNumPcs: nat
    var remainingNumPcs: nat
    var rangeId: nat
    var pPcData: array<PCData>

    constructor (size: SizeTag, collectNumPcs: nat, totalSamples: nat, droppedSamples: nat,
                 totalNumPcs: nat, remainingNumPcs: nat, rangeId: nat, pPcData: array<PCData>)
      ensures this.size == size && this.collectNumPcs == collectNumPcs
      ensures this.totalSamples == totalSamples && this.droppedSamples == droppedSamples
      ensures this.totalNumPcs == totalNumPcs && this.remainingNumPcs == remainingNumPcs
      ensures this.rangeId == rangeId && this.pPcData == pPcData
    {
      this.size := size;
      this.collectNumPcs := collectNumPcs;
      this.totalSamples := totalSamples;
      this.droppedSamples := droppedSamples;
      this.totalNumPcs := totalNumPcs;
      this.remainingNumPcs := remainingNumPcs;
      this.rangeId := rangeId;
      this.pPcData := pPcData;
    }
  }

  /** The parameter records, field for field in declaration order
      (`pPriv` is always NULL and is not kept). */
  datatype CubinCrcParams = CubinCrcParams(
    size: SizeTag, cubinSize: nat, cubin: seq<byte>, cubinCrc: uint64)

  datatype NumStallReasonsParams = NumStallReasonsParams(
    size: SizeTag, ctx: Context, numStallReasons: nat)

  datatype SassToSourceParams = SassToSourceParams(
    size: SizeTag, cubin: seq<byte>, functionName: string, cubinSize: nat,
    lineNumber: uint32, pcOffset: uint64, fileName: Ptr, dirName: Ptr)

  datatype ContextParams = ContextParams(size: SizeTag, ctx: Context)

  datatype GetDataParams = GetDataParams(size: SizeTag, ctx: Context, pcSamplingData: PCSamplingData)

  datatype ConfigurationInfoParams = ConfigurationInfoParams(
    size: SizeTag, ctx: Context, numAttributes: nat,
    pPCSamplingConfigurationInfo: array<ConfigurationInfo>)

  /** One PC-sampling transport call as issued, with its `checkErrors` flag. */
  datatype SamplingCall =
    | GetCubinCrcCall(crc: CubinCrcParams, checkErrors: bool)
    | GetNumStallReasonsCall(stall: NumStallReasonsParams, checkErrors: bool)
    | GetSassToSourceCall(sass: SassToSourceParams, checkErrors: bool)
    | EnableCall(enable: ContextParams, checkErrors: bool)
    | StartCall(start: ContextParams, checkErrors: bool)
    | StopCall(stop: ContextParams, checkErrors: bool)
    | GetDataCall(data: GetDataParams, checkErrors: bool)
    | SetConfigurationCall(config: ConfigurationInfoParams, checkErrors: bool)

  /** What the vendor answers to one call: its status, and the value it
      writes into the out-field, if it writes one. */
  datatype Reply<T> = Reply(ok: bool, out: Option<T>)

  /** What the vendor answers to a source-correlation query: its status, the
      line number it writes, if any, and the names it allocates, if any. */
  datatype SassReply = SassReply(
    ok: bool, lineNumber: Option<uint32>, fileName: Option<string>, dirName: Option<string>)

  /** What happens to vendor-allocated memory, as seen from the caller's side. */
  datatype MemoryEvent = Copied(addr: nat) | Freed(addr: nat)

  /** The value of an out-field after the vendor call: what the vendor wrote,
      or the value the caller put there before the call. */
  function Written<T>(out: Option<T>, before: T): T
  {
    match out
    case Some(x) => x
    case None => before
  }

  /** The addresses the vendor hands out, from `base` on, for the names of a
      correlation reply: NULL for a name it does not report. */
  function NameAddresses(base: nat, reply: SassReply): (Ptr, Ptr)
  {
    var file := if reply.fileName.Some? then Addr(base) else Null;
    var dir := if reply.dirName.Some? then Addr(if file.Addr? then base + 1 else base) else Null;
    (file, dir)
  }

  /** The vendor heap after storing `name`, if there is one, at `p`. */
  function Store(heap: map<nat, string>, p: Ptr, name: Option<string>): map<nat, string>
  {
    if p.Addr? && name.Some? then heap[p.addr := name.value] else heap
  }

  /** The stall-reason arrays the PC records of a buffer point to. */
  function StallArrays(records: array<PCData>): set<array<StallReason>>
    reads records
  {
    set i | 0 <= i < records.Length && records[i].stallReason != null :: records[i].stallReason
  }

  /** Whether a buffer still has the given size tag, capacity and record array. */
  predicate Preserved(data: PCSamplingData, size: SizeTag, collectNumPcs: nat, pPcData: array<PCData>)
    reads data
  {
    data.size == size && data.collectNumPcs == collectNumPcs && data.pPcData == pPcData
  }

  class PCSamplingApi {
    /** Every PC-sampling call received, in order. */
    var log: seq<SamplingCall>
    /** Live vendor-allocated strings, by address. */
    var heap: map<nat, string>
    /** The next address the vendor allocator hands out. */
    var nextAddr: nat
    /** Copies out of, and frees of, vendor memory, in order. */
    var events: seq<MemoryEvent>

    ghost predicate Valid()
      reads this
    {
      forall a :: a in heap ==> a < nextAddr
    }

    constructor ()
      ensures Valid() && log == [] && heap == map[] && events == []
    {
      log := [];
      heap := map[];
      nextAddr := 0;
      events := [];
    }

    /** Allocates a vendor string at a fresh address. */
    method Allocate(s: string) returns (p: Ptr)
      requires Valid()
      modifies this
      ensures Valid()
      ensures p == Addr(old(nextAddr)) && p.addr !in old(heap)
      ensures heap == old(heap)[p.addr := s] && nextAddr == old(nextAddr) + 1
      ensures log == old(log) && events == old(events)
    {
      p := Addr(nextAddr);
      heap := heap[nextAddr := s];
      nextAddr := nextAddr + 1;
    }

    /** Copies a live vendor string into caller-owned storage. */
    method CopyString(p: Ptr) returns (s: string)
      requires p.Addr? && p.addr in heap
      modifies this
      ensures log == old(log) && heap == old(heap) && nextAddr == old(nextAddr)
      ensures s == heap[p.addr]
      ensures events == old(events) + [Copied(p.addr)]
    {
      s := heap[p.addr];
      events := events + [Copied(p.addr)];
    }

    /** `std::free` of vendor memory: only a live allocation may be freed. */
    method Free(p: Ptr)
      requires p.Addr? && p.addr in heap
      modifies this
      ensures heap == old(heap) - {p.addr}
      ensures events == old(events) + [Freed(p.addr)]
      ensures log == old(log) && nextAddr == old(nextAddr)
    {
      heap := heap - {p.addr};
      events := events + [Freed(p.addr)];
    }

    method GetCubinCrc(params: CubinCrcParams, checkErrors: bool, reply: Reply<uint64>)
      returns (ok: bool, written: CubinCrcParams)
      modifies this
      ensures log == old(log) + [GetCubinCrcCall(params, checkErrors)]
      ensures ok == reply.ok && written == params.(cubinCrc := Written(reply.out, params.cubinCrc))
      ensures heap == old(heap) && nextAddr == old(nextAddr) && events == old(events)
    {
      log := log + [GetCubinCrcCall(params, checkErrors)];
      ok := reply.ok;
      written := params.(cubinCrc := Written(reply.out, params.cubinCrc));
    }

    method PCSamplingGetNumStallReasons(params: NumStallReasonsParams, checkErrors: bool,
                                        reply: Reply<nat>)
      returns (ok: bool, written: NumStallReasonsParams)
      modifies this
      ensures log == old(log) + [GetNumStallReasonsCall(params, checkErrors)]
      ensures ok == reply.ok
      ensures written == params.(numStallReasons := Written(reply.out, params.numStallReasons))
      ensures heap == old(heap) && nextAddr == old(nextAddr) && events == old(events)
    {
      log := log + [GetNumStallReasonsCall(params, checkErrors)];
      ok := reply.ok;
      written := params.(numStallReasons := Written(reply.out, params.numStallReasons));
    }

    /** The vendor writes the line number and allocates each name it reports;
        the file name, when present, is allocated first. */
    method GetSassToSourceCorrelation(params: SassToSourceParams, checkErrors: bool,
                                      reply: SassReply)
      returns (ok: bool, written: SassToSourceParams)
      requires Valid()
      modifies this
      ensures Valid()
      ensures log == old(log) + [GetSassToSourceCall(params, checkErrors)]
      ensures ok == reply.ok && events == old(events)
      ensures var (file, dir) := NameAddresses(old(nextAddr), reply);
        written == params.(lineNumber := Written(reply.lineNumber, params.lineNumber),
                           fileName := if file.Addr? then file else params.fileName,
                           dirName := if dir.Addr? then dir else params.dirName) &&
        heap == Store(Store(old(heap), file, reply.fileName), dir, reply.dirName)
    {
      log := log + [GetSassToSourceCall(params, checkErrors)];
      ok := reply.ok;
      written := params.(lineNumber := Written(reply.lineNumber, params.lineNumber));
      if reply.fileName.Some? {
        var p := Allocate(reply.fileName.value);
        written := written.(fileName := p);
      }
      if reply.dirName.Some? {
        var p := Allocate(reply.dirName.value);
        written := written.(dirName := p);
      }
    }

    method PCSamplingEnable(params: ContextParams, checkErrors: bool, reply: Reply<()>)
      returns (ok: bool)
      modifies this
      ensures log == old(log) + [EnableCall(params, checkErrors)] && ok == reply.ok
      ensures heap == old(heap) && nextAddr == old(nextAddr) && events == old(events)
    {
      log := log + [EnableCall(params, checkErrors)];
      ok := reply.ok;
    }

    method PCSamplingStart(params: ContextParams, checkErrors: bool, reply: Reply<()>)
      returns (ok: bool)
      modifies this
      ensures log == old(log) + [StartCall(params, checkErrors)] && ok == reply.ok
      ensures heap == old(heap) && nextAddr == old(nextAddr) && events == old(events)
    {
      log := log + [StartCall(params, checkErrors)];
      ok := reply.ok;
    }

    method PCSamplingStop(params: ContextParams, checkErrors: bool, reply: Reply<()>)
      returns (ok: bool)
      modifies this
      ensures log == old(log) + [StopCall(params, checkErrors)] && ok == reply.ok
      ensures heap == old(heap) && nextAddr == old(nextAddr) && events == old(events)
    {
      log := log + [StopCall(params, checkErrors)];
      ok := reply.ok;
    }

    /** The vendor fills the caller's buffer in place: its counters, its PC
        records and their stall-reason counters may all be written, with values
        this model leaves open. The buffer keeps its size tag, its capacity and
        its record array. */
    method PCSamplingGetData(params: GetDataParams, checkErrors: bool, reply: Reply<()>)
      returns (ok: bool)
      modifies this, params.pcSamplingData, params.pcSamplingData.pPcData
      modifies StallArrays(params.pcSamplingData.pPcData)
      ensures log == old(log) + [GetDataCall(params, checkErrors)] && ok == reply.ok
      ensures heap == old(heap) && nextAddr == old(nextAddr) && events == old(events)
      ensures Preserved(params.pcSamplingData, old(params.pcSamplingData.size),
                        old(params.pcSamplingData.collectNumPcs),
                        old(params.pcSamplingData.pPcData))
    {
      log := log + [GetDataCall(params, checkErrors)];
      ok := reply.ok;
    }

    /** The vendor reads the caller's attribute array and may write into it,
        with values this model leaves open. */
    method PCSamplingSetConfigurationAttribute(params: ConfigurationInfoParams,
                                               checkErrors: bool, reply: Reply<()>)
      returns (ok: bool)
      modifies this, params.pPCSamplingConfigurationInfo
      ensures log == old(log) + [SetConfigurationCall(params, checkErrors)] && ok == reply.ok
      ensures heap == old(heap) && nextAddr == old(nextAddr) && events == old(events)
    {
      log := log + [SetConfigurationCall(params, checkErrors)];
      ok := reply.ok;
    }
  }
}
