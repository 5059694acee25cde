/*
 * The callback selector: five fixed catalogs of vendor callback ids, one
 * toggle per catalog that arms or disarms every id of the catalog for a
 * subscriber, and the membership query `isDriverAPILaunch`.
 *
 * Callback ids are unsigned 32-bit numbers whose values the vendor headers
 * fix. Those headers are not part of this model: every named id below has a
 * stand-in value, distinct and non-zero within its domain, which is all the
 * properties proved here rely on. The value 0 is the one every vendor
 * callback-id enumeration reserves for its INVALID entry; it is also what a
 * C++ array slot without an initialiser holds.
 */
module CuptiCallbacks {
  import opened CuptiApi

  // Driver API domain.
  const cuLaunch: CallbackId := 1
  const cuLaunchGrid: CallbackId := 2
  const cuLaunchGridAsync: CallbackId := 3
  const cuLaunchKernel: CallbackId := 4
  const cuLaunchKernel_ptsz: CallbackId := 5
  const cuLaunchKernelEx: CallbackId := 6
  const cuLaunchKernelEx_ptsz: CallbackId := 7
  const cuLaunchCooperativeKernel: CallbackId := 8
  const cuLaunchCooperativeKernel_ptsz: CallbackId := 9
  const cuLaunchCooperativeKernelMultiDevice: CallbackId := 10
  const cuGraphLaunch: CallbackId := 11
  const cuGraphLaunch_ptsz: CallbackId := 12
  const cuStreamBeginCapture: CallbackId := 13
  const cuStreamBeginCapture_ptsz: CallbackId := 14
  const cuStreamEndCapture: CallbackId := 15
  const cuStreamEndCapture_ptsz: CallbackId := 16
  const cuStreamBeginCapture_v2: CallbackId := 17
  const cuStreamBeginCapture_v2_ptsz: CallbackId := 18
  const cuStreamBeginCaptureToGraph: CallbackId := 19
  const cuStreamBeginCaptureToGraph_ptsz: CallbackId := 20

  // Runtime API domain.
  const cudaLaunch_v3020: CallbackId := 1
  const cudaLaunchKernel_v7000: CallbackId := 2
  const cudaLaunch_ptsz_v7000: CallbackId := 3
  const cudaLaunchKernel_ptsz_v7000: CallbackId := 4
  const cudaLaunchKernelExC_v11060: CallbackId := 5
  const cudaLaunchKernelExC_ptsz_v11060: CallbackId := 6
  const cudaLaunchCooperativeKernel_v9000: CallbackId := 7
  const cudaLaunchCooperativeKernel_ptsz_v9000: CallbackId := 8
  const cudaLaunchCooperativeKernelMultiDevice_v9000: CallbackId := 9
  const cudaGraphLaunch_v10000: CallbackId := 10
  const cudaGraphLaunch_ptsz_v10000: CallbackId := 11

  // Resource domain.
  const GRAPHNODE_CREATED: CallbackId := 1
  const GRAPHNODE_CLONED: CallbackId := 2
  const GRAPHNODE_DESTROY_STARTING: CallbackId := 3
  const GRAPHEXEC_CREATED: CallbackId := 4
  const GRAPHEXEC_DESTROY_STARTING: CallbackId := 5
  const MODULE_LOADED: CallbackId := 6
  const MODULE_UNLOAD_STARTING: CallbackId := 7
  const CONTEXT_CREATED: CallbackId := 8
  const CONTEXT_DESTROY_STARTING: CallbackId := 9

  // NVTX domain.
  const nvtxRangePushA: CallbackId := 1
  const nvtxRangePop: CallbackId := 2

  /** Declared with 22 slots and 21 initialisers: the last slot is 0, and
      cuStreamEndCapture is listed twice. */
  const DriverApiLaunchCallbacks: seq<CallbackId> := [
    cuLaunch, cuLaunchGrid, cuLaunchGridAsync, cuLaunchKernel, cuLaunchKernel_ptsz,
    cuLaunchKernelEx, cuLaunchKernelEx_ptsz, cuLaunchCooperativeKernel,
    cuLaunchCooperativeKernel_ptsz, cuLaunchCooperativeKernelMultiDevice, cuGraphLaunch,
    cuGraphLaunch_ptsz, cuStreamBeginCapture, cuStreamBeginCapture_ptsz, cuStreamEndCapture,
    cuStreamEndCapture_ptsz, cuStreamBeginCapture_v2, cuStreamBeginCapture_v2_ptsz,
    cuStreamBeginCaptureToGraph, cuStreamBeginCaptureToGraph_ptsz, cuStreamEndCapture,
    0]

  const RuntimeApiLaunchCallbacks: seq<CallbackId> := [
    cudaLaunch_v3020, cudaLaunchKernel_v7000, cudaLaunch_ptsz_v7000,
    cudaLaunchKernel_ptsz_v7000, cudaLaunchKernelExC_v11060, cudaLaunchKernelExC_ptsz_v11060,
    cudaLaunchCooperativeKernel_v9000, cudaLaunchCooperativeKernel_ptsz_v9000,
    cudaLaunchCooperativeKernelMultiDevice_v9000, cudaGraphLaunch_v10000,
    cudaGraphLaunch_ptsz_v10000]

  /** Declared with 6 slots and 5 initialisers: the last slot is 0. */
  const GraphResourceCallbacks: seq<CallbackId> := [
    GRAPHNODE_CREATED, GRAPHNODE_CLONED, GRAPHNODE_DESTROY_STARTING, GRAPHEXEC_CREATED,
    GRAPHEXEC_DESTROY_STARTING, 0]

  const ResourceCallbacks: seq<CallbackId> := [
    MODULE_LOADED, MODULE_UNLOAD_STARTING, CONTEXT_CREATED, CONTEXT_DESTROY_STARTING]

  const NvtxCallbacks: seq<CallbackId> := [nvtxRangePushA, nvtxRangePop]

  // ---------------------------------------------------------------------
  // Specification of a catalog toggle
  // ---------------------------------------------------------------------

  /** The `uint32_t` a `bool` converts to. */
  function Flag(enable: bool): uint32
  {
    if enable then 1 else 0
  }

  /** The calls a toggle issues for the slots `ids`, in slot order. */
  function Requests(subscriber: Subscriber, enable: bool, domain: Domain, ids: seq<CallbackId>)
    : seq<EnableRequest>
  {
    if ids == [] then []
    else Requests(subscriber, enable, domain, ids[..|ids| - 1])
         + [EnableRequest(Flag(enable), subscriber, domain, ids[|ids| - 1], true)]
  }

  /** The armed state after the vendor accepted the calls for the slots `ids`, in slot order. */
  function Apply(armed: map<Key, bool>, subscriber: Subscriber, enable: bool, domain: Domain,
                 ids: seq<CallbackId>): map<Key, bool>
  {
    if ids == [] then armed
    else Apply(armed, subscriber, enable, domain, ids[..|ids| - 1])
           [Key(subscriber, domain, ids[|ids| - 1]) := enable]
  }

  /** Whether `k` is one of the keys a toggle of `ids` touches. */
  predicate InCatalog(k: Key, subscriber: Subscriber, domain: Domain, ids: seq<CallbackId>)
  {
    k.subscriber == subscriber && k.domain == domain && k.cbid in ids
  }

  /** The outcome of a toggle: every slot applied, or the first rejected slot. */
  datatype Toggle = Applied | FailedAt(slot: nat)

  /** The contract of a toggle of `table`: on success every slot was issued
      and applied; on failure at slot k, slots 0..k were issued, slots
      0..k-1 were applied, slot k was rejected, and nothing was rolled back. */
  ghost predicate Toggled(trace0: seq<EnableRequest>, armed0: map<Key, bool>,
                          trace1: seq<EnableRequest>, armed1: map<Key, bool>,
                          unsupported: set<(Domain, CallbackId)>,
                          subscriber: Subscriber, enable: bool, domain: Domain,
                          table: seq<CallbackId>, outcome: Toggle)
  {
    match outcome
    case Applied =>
      (forall i :: 0 <= i < |table| ==> (domain, table[i]) !in unsupported) &&
      trace1 == trace0 + Requests(subscriber, enable, domain, table) &&
      armed1 == Apply(armed0, subscriber, enable, domain, table)
    case FailedAt(k) =>
      k < |table| && (domain, table[k]) in unsupported &&
      (forall i :: 0 <= i < k ==> (domain, table[i]) !in unsupported) &&
      trace1 == trace0 + Requests(subscriber, enable, domain, table[..k + 1]) &&
      armed1 == Apply(armed0, subscriber, enable, domain, table[..k])
  }

  // ---------------------------------------------------------------------
  // The toggles
  // ---------------------------------------------------------------------

  /** The loop every `set*Callbacks` runs: one strict `enableCallback` per
      slot, in order, stopping at the first call that fails. */
  method SetCatalog(api: CallbackApi, subscriber: Subscriber, enable: bool, domain: Domain,
                    table: seq<CallbackId>)
    returns (outcome: Toggle)
    modifies api
    ensures Toggled(old(api.trace), old(api.armed), api.trace, api.armed, api.unsupported,
                    subscriber, enable, domain, table, outcome)
  {
    for i := 0 to |table|
      invariant forall j :: 0 <= j < i ==> (domain, table[j]) !in api.unsupported
      invariant api.trace == old(api.trace) + Requests(subscriber, enable, domain, table[..i])
      invariant api.armed == Apply(old(api.armed), subscriber, enable, domain, table[..i])
    {
      var ok := api.EnableCallback(Flag(enable), subscriber, domain, table[i], true);
      assert table[..i + 1][..i] == table[..i];
      if !ok {
        return FailedAt(i);
      }
    }
    assert table[..|table|] == table;
    return Applied;
  }

  method SetRuntimeCallbacks(api: CallbackApi, subscriber: Subscriber, enable: bool)
    returns (outcome: Toggle)
    modifies api
    ensures Toggled(old(api.trace), old(api.armed), api.trace, api.armed, api.unsupported,
                    subscriber, enable, RuntimeApi, RuntimeApiLaunchCallbacks, outcome)
  {
    outcome := SetCatalog(api, subscriber, enable, RuntimeApi, RuntimeApiLaunchCallbacks);
  }

  method SetDriverCallbacks(api: CallbackApi, subscriber: Subscriber, enable: bool)
    returns (outcome: Toggle)
    modifies api
    ensures Toggled(old(api.trace), old(api.armed), api.trace, api.armed, api.unsupported,
                    subscriber, enable, DriverApi, DriverApiLaunchCallbacks, outcome)
  {
    outcome := SetCatalog(api, subscriber, enable, DriverApi, DriverApiLaunchCallbacks);
  }

  method SetGraphCallbacks(api: CallbackApi, subscriber: Subscriber, enable: bool)
    returns (outcome: Toggle)
    modifies api
    ensures Toggled(old(api.trace), old(api.armed), api.trace, api.armed, api.unsupported,
                    subscriber, enable, Resource, GraphResourceCallbacks, outcome)
  {
    outcome := SetCatalog(api, subscriber, enable, Resource, GraphResourceCallbacks);
  }

  method SetResourceCallbacks(api: CallbackApi, subscriber: Subscriber, enable: bool)
    returns (outcome: Toggle)
    modifies api
    ensures Toggled(old(api.trace), old(api.armed), api.trace, api.armed, api.unsupported,
                    subscriber, enable, Resource, ResourceCallbacks, outcome)
  {
    outcome := SetCatalog(api, subscriber, enable, Resource, ResourceCallbacks);
  }

  method SetNvtxCallbacks(api: CallbackApi, subscriber: Subscriber, enable: bool)
    returns (outcome: Toggle)
    modifies api
    ensures Toggled(old(api.trace), old(api.armed), api.trace, api.armed, api.unsupported,
                    subscriber, enable, Nvtx, NvtxCallbacks, outcome)
  {
    outcome := SetCatalog(api, subscriber, enable, Nvtx, NvtxCallbacks);
  }

  // ---------------------------------------------------------------------
  // Membership query
  // ---------------------------------------------------------------------

  /** `std::find`: the first index holding `x`, or `|s|` (the end) when none does. */
  function Find(s: seq<CallbackId>, x: CallbackId): (i: nat)
    ensures i <= |s|
    ensures i < |s| ==> s[i] == x
    ensures forall j :: 0 <= j < i ==> s[j] != x
  {
    if s == [] then 0
    else if s[0] == x then 0
    else 1 + Find(s[1..], x)
  }

  function IsDriverApiLaunch(cbid: CallbackId): (r: bool)
    ensures r <==> cbid in DriverApiLaunchCallbacks
  {
    Find(DriverApiLaunchCallbacks, cbid) != |DriverApiLaunchCallbacks|
  }

  // ---------------------------------------------------------------------
  // Properties
  // ---------------------------------------------------------------------

  /** A toggle issues exactly one call per slot, in slot order, each with the
      0/1 flag, the subscriber, the catalog's domain and strict checking. */
  lemma {:induction false} RequestsAt(subscriber: Subscriber, enable: bool, domain: Domain,
                                      ids: seq<CallbackId>)
    ensures |Requests(subscriber, enable, domain, ids)| == |ids|
    ensures forall i :: 0 <= i < |ids| ==>
      Requests(subscriber, enable, domain, ids)[i]
        == EnableRequest(Flag(enable), subscriber, domain, ids[i], true)
  {
    if ids != [] {
      var prefix := ids[..|ids| - 1];
      RequestsAt(subscriber, enable, domain, prefix);
      forall i | 0 <= i < |ids| - 1 ensures prefix[i] == ids[i] { }
    }
  }

  /** After a toggle, every key of the catalog maps to `enable` and every
      other key is exactly as before. */
  lemma {:induction false} ApplyEffect(armed: map<Key, bool>, subscriber: Subscriber,
                                       enable: bool, domain: Domain, ids: seq<CallbackId>)
    ensures forall k :: k in Apply(armed, subscriber, enable, domain, ids)
                       <==> k in armed || InCatalog(k, subscriber, domain, ids)
    ensures forall k :: k in Apply(armed, subscriber, enable, domain, ids) ==>
      Apply(armed, subscriber, enable, domain, ids)[k]
        == if InCatalog(k, subscriber, domain, ids) then enable else armed[k]
  {
    if ids != [] {
      var prefix := ids[..|ids| - 1];
      ApplyEffect(armed, subscriber, enable, domain, prefix);
      assert ids == prefix + [ids[|ids| - 1]];
      forall k ensures InCatalog(k, subscriber, domain, ids)
                       <==> InCatalog(k, subscriber, domain, prefix) || k == Key(subscriber, domain, ids[|ids| - 1])
      {
        assert k.cbid in ids <==> k.cbid in prefix || k.cbid == ids[|ids| - 1];
      }
    }
  }

  /** Arming a catalog and then disarming it leaves every key of the catalog
      disarmed and every other key as it was; so it restores the previous
      armed state exactly when no key of the catalog was armed before. */
  lemma ArmThenDisarm(armed: map<Key, bool>, subscriber: Subscriber, domain: Domain,
                      ids: seq<CallbackId>)
    ensures var after := Apply(Apply(armed, subscriber, true, domain, ids),
                               subscriber, false, domain, ids);
      forall k :: Armed(after, k) <==> Armed(armed, k) && !InCatalog(k, subscriber, domain, ids)
    ensures var after := Apply(Apply(armed, subscriber, true, domain, ids),
                               subscriber, false, domain, ids);
      (forall k :: InCatalog(k, subscriber, domain, ids) ==> !Armed(armed, k)) <==>
      (forall k :: Armed(after, k) <==> Armed(armed, k))
  {
    var on := Apply(armed, subscriber, true, domain, ids);
    ApplyEffect(armed, subscriber, true, domain, ids);
    ApplyEffect(on, subscriber, false, domain, ids);
  }

  /** `isDriverAPILaunch(0)` holds, because the 22nd slot of the driver table is 0. */
  lemma DriverTableQuirks()
    ensures |DriverApiLaunchCallbacks| == 22 && DriverApiLaunchCallbacks[21] == 0
    ensures forall i :: 0 <= i < 22 ==>
      (DriverApiLaunchCallbacks[i] == cuStreamEndCapture <==> i == 14 || i == 20)
    ensures forall i :: 0 <= i < 22 ==> (DriverApiLaunchCallbacks[i] == 0 <==> i == 21)
    ensures IsDriverApiLaunch(0)
  {
  }

  /** `setDriverCallbacks` issues 22 calls: cuStreamEndCapture at slots 14 and
      20, id 0 at slot 21, all in the driver domain with the same flag and subscriber. */
  lemma DriverToggleCalls(subscriber: Subscriber, enable: bool)
    ensures var calls := Requests(subscriber, enable, DriverApi, DriverApiLaunchCallbacks);
      |calls| == 22 &&
      (forall i :: 0 <= i < 22 ==>
         calls[i].enable == Flag(enable) && calls[i].subscriber == subscriber &&
         calls[i].domain == DriverApi && calls[i].checkErrors) &&
      (forall i :: 0 <= i < 22 ==> (calls[i].cbid == cuStreamEndCapture <==> i == 14 || i == 20)) &&
      (forall i :: 0 <= i < 22 ==> (calls[i].cbid == 0 <==> i == 21))
  {
    RequestsAt(subscriber, enable, DriverApi, DriverApiLaunchCallbacks);
    DriverTableQuirks();
  }

  /** `setGraphCallbacks` issues 6 calls, the last for id 0 in the resource domain. */
  lemma GraphToggleCalls(subscriber: Subscriber, enable: bool)
    ensures var calls := Requests(subscriber, enable, Resource, GraphResourceCallbacks);
      |calls| == 6 && calls[5] == EnableRequest(Flag(enable), subscriber, Resource, 0, true)
  {
    RequestsAt(subscriber, enable, Resource, GraphResourceCallbacks);
  }

  /** The graph and resource catalogs share the resource domain, but no
      non-zero id is in both. */
  lemma GraphResourceDisjoint()
    ensures forall i, j ::
      0 <= i < |GraphResourceCallbacks| && 0 <= j < |ResourceCallbacks| && GraphResourceCallbacks[i] != 0
      ==> GraphResourceCallbacks[i] != ResourceCallbacks[j]
    ensures 0 !in ResourceCallbacks
  {
  }

  /** Toggling the graph catalog leaves the armed state of every
      resource-catalog key of the same subscriber unchanged. */
  lemma GraphToggleKeepsResourceKeys(armed: map<Key, bool>, subscriber: Subscriber, enable: bool)
    ensures forall id :: id in ResourceCallbacks ==>
      Armed(Apply(armed, subscriber, enable, Resource, GraphResourceCallbacks),
            Key(subscriber, Resource, id))
        == Armed(armed, Key(subscriber, Resource, id))
  {
    ApplyEffect(armed, subscriber, enable, Resource, GraphResourceCallbacks);
    GraphResourceDisjoint();
  }
}
