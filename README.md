# Proton CUPTI callback selector and PC-sampling helpers, in Dafny

This project models two small layers that the Proton profiler puts on top of
the NVIDIA CUPTI profiling transport.

- **Callback selector** (`cupti_callbacks.dfy`, module `CuptiCallbacks`). It
  holds five constant catalogs of callback ids: driver-API launches,
  runtime-API launches, graph resources, generic resources and NVTX ranges.
  There is one toggle per catalog, `set*Callbacks(subscriber, enable)`. Each
  toggle issues one strict `enableCallback(enable ? 1 : 0, subscriber, DOMAIN, id)`
  per catalog slot, in slot order. The selector also answers the membership
  query `isDriverAPILaunch`.
- **PC-sampling helpers** (`cupti_pc_sampling_utils.dfy`, module
  `CuptiPCSamplingUtils`). These are wrappers that fill a vendor parameter
  record, call the transport and return what it wrote back. This part also
  holds the sampling-buffer allocator and the source-correlation query. That
  query copies the vendor-allocated file and directory names and then frees
  them.

The transport is not part of this model. `cupti_api.dfy` (module `CuptiApi`)
stands in for it with two recording objects:

- `CallbackApi` keeps the trace of `enableCallback` calls and the armed flag
  of each (subscriber, domain, id). Its constant set `unsupported` lists the
  (domain, id) pairs this driver version rejects.
- `PCSamplingApi` keeps the log of PC-sampling calls, the live vendor-allocated
  strings (`heap`), and the copies and frees done on them (`events`).
  `Free` accepts only a live address, so a verified caller cannot double-free,
  free NULL or use memory after freeing it.

What the vendor answers to a call (its status, and the value it writes into an
out-field, if any) is a parameter of each wrapper. The contracts therefore hold
for every possible answer. Where the vendor writes into caller-owned memory (the
sampling buffer of `getPCSamplingData`, the attribute array of
`setConfigurationAttribute`), the stand-in may write any values there, and the
contracts hold whatever it writes. When a wrapper asks for strict checking and the
call fails, it returns `Err` and does nothing more. In lenient mode (only
`getSassToSourceCorrelation<false>`) the status is ignored.

The catalogs are reproduced as written:

- `kDriverApiLaunchCallbacks` is declared with 22 slots but has 21
  initialisers (csrc/lib/Profiler/Cupti/CuptiCallbacks.cpp:11-32), so its last
  slot is 0. It also lists `cuStreamEndCapture` twice (lines 26 and 32). It
  therefore holds 20 distinct named ids, one duplicate and 0.
- `kGraphResourceCallbacks` is declared with 6 slots but has 5 initialisers
  (csrc/lib/Profiler/Cupti/CuptiCallbacks.cpp:48-54), so its last slot is 0.

The toggles therefore also toggle id 0, and `isDriverAPILaunch(0)` is true.

## Model

| member | source | states |
|---|---|---|
| `CuptiCallbacks.DriverApiLaunchCallbacks` | csrc/lib/Profiler/Cupti/CuptiCallbacks.cpp:11-32 | 22 slots: the 21 initialisers in order (`cuStreamEndCapture` both at slot 14 and at slot 20), then 0 for the slot without an initialiser. |
| `CuptiCallbacks.RuntimeApiLaunchCallbacks` | csrc/lib/Profiler/Cupti/CuptiCallbacks.cpp:34-46 | 11 slots: the 11 runtime launch ids in order, from `cudaLaunch_v3020` to `cudaGraphLaunch_ptsz_v10000`. |
| `CuptiCallbacks.GraphResourceCallbacks` | csrc/lib/Profiler/Cupti/CuptiCallbacks.cpp:48-54 | 6 slots: the 5 graph-node and graph-exec resource ids in order, then 0 for the slot without an initialiser. |
| `CuptiCallbacks.ResourceCallbacks` | csrc/lib/Profiler/Cupti/CuptiCallbacks.cpp:56-61 | 4 slots: module loaded, module unload starting, context created, context destroy starting, in that order. |
| `CuptiCallbacks.NvtxCallbacks` | csrc/lib/Profiler/Cupti/CuptiCallbacks.cpp:63-66 | 2 slots: `nvtxRangePushA`, then `nvtxRangePop`. |
| `CuptiCallbacks.SetCatalog` | csrc/lib/Profiler/Cupti/CuptiCallbacks.cpp:70-103 | The shared loop of the five toggles. On success, the trace grows by exactly one strict call per slot, in slot order, and the armed map becomes `Apply` of the whole table. If the vendor rejects slot k, all earlier slots were accepted, slots 0..k were issued, only slots 0..k-1 were applied, and nothing is rolled back. |
| `CuptiCallbacks.SetRuntimeCallbacks` | csrc/lib/Profiler/Cupti/CuptiCallbacks.cpp:70-75 | The toggle contract for the 11-slot runtime table in the RUNTIME_API domain. |
| `CuptiCallbacks.SetDriverCallbacks` | csrc/lib/Profiler/Cupti/CuptiCallbacks.cpp:77-82 | The toggle contract for the 22-slot driver table in the DRIVER_API domain. |
| `CuptiCallbacks.SetGraphCallbacks` | csrc/lib/Profiler/Cupti/CuptiCallbacks.cpp:84-89 | The toggle contract for the 6-slot graph table in the RESOURCE domain. |
| `CuptiCallbacks.SetResourceCallbacks` | csrc/lib/Profiler/Cupti/CuptiCallbacks.cpp:91-96 | The toggle contract for the 4-slot resource table in the RESOURCE domain. |
| `CuptiCallbacks.SetNvtxCallbacks` | csrc/lib/Profiler/Cupti/CuptiCallbacks.cpp:98-103 | The toggle contract for the 2-slot NVTX table in the NVTX domain. |
| `CuptiCallbacks.Find` | csrc/lib/Profiler/Cupti/CuptiCallbacks.cpp:106-108 | `std::find` returns an index no larger than the length. An index below the length holds the value, and no earlier slot holds it. The length itself means "not found". |
| `CuptiCallbacks.IsDriverApiLaunch` | csrc/lib/Profiler/Cupti/CuptiCallbacks.cpp:105-109 | True exactly when the id occurs in the 22-slot driver table (both directions). It is a function, so it has no side effects. |
| `CuptiCallbacks.RequestsAt` | csrc/lib/Profiler/Cupti/CuptiCallbacks.cpp:71-74 | A toggle issues exactly as many calls as the table has slots. Call i carries flag `enable ? 1 : 0`, the same subscriber, the catalog's domain, id `table[i]` and strict checking. |
| `CuptiCallbacks.ApplyEffect` | csrc/lib/Profiler/Cupti/CuptiCallbacks.cpp:70-103 | After a toggle, every (subscriber, domain, id) of the table maps to `enable`. Every other key is exactly as before, both whether it is present and its value. |
| `CuptiCallbacks.ArmThenDisarm` | csrc/lib/Profiler/Cupti/CuptiCallbacks.cpp:70-103 | Arming a catalog and then disarming it leaves every catalog key disarmed and every other key's armed state unchanged. The round trip restores the earlier armed state exactly when no catalog key was armed before. |
| `CuptiCallbacks.DriverTableQuirks` | csrc/lib/Profiler/Cupti/CuptiCallbacks.cpp:11-32 | The driver table has 22 slots. `cuStreamEndCapture` sits at slots 14 and 20 only, 0 sits at slot 21 only, and `isDriverAPILaunch(0)` holds. |
| `CuptiCallbacks.DriverToggleCalls` | csrc/lib/Profiler/Cupti/CuptiCallbacks.cpp:77-82 | `setDriverCallbacks` issues 22 calls, all with the same flag, the same subscriber, the DRIVER_API domain and strict checking. `cuStreamEndCapture` is toggled by calls 14 and 20 only, and id 0 by call 21 only. |
| `CuptiCallbacks.GraphToggleCalls` | csrc/lib/Profiler/Cupti/CuptiCallbacks.cpp:84-89 | `setGraphCallbacks` issues 6 calls. The last one is for id 0 in the RESOURCE domain. |
| `CuptiCallbacks.GraphResourceDisjoint` | csrc/lib/Profiler/Cupti/CuptiCallbacks.cpp:48-61 | The graph and resource tables share the RESOURCE domain, but no non-zero id is in both, and the resource table has no 0 slot. |
| `CuptiCallbacks.GraphToggleKeepsResourceKeys` | csrc/lib/Profiler/Cupti/CuptiCallbacks.cpp:84-96 | Toggling the graph catalog leaves the armed state of every resource-catalog key of the same subscriber unchanged. |
| `CuptiPCSamplingUtils.GetCubinCrc` | csrc/include/Profiler/Cupti/CuptiPCSamplingUtils.h:16-25 | Issues one strict call with the size tag, the image length and bytes, and a CRC out-field set to 0. It returns the CRC the vendor wrote, or 0 if the vendor wrote none. It returns `Err` exactly when the vendor fails. Vendor memory is not touched. |
| `CuptiPCSamplingUtils.GetNumStallReasons` | csrc/include/Profiler/Cupti/CuptiPCSamplingUtils.h:28-37 | Issues one strict call with the size tag, the context and an out-value set to 0. It returns the count the vendor wrote, or 0 if the vendor wrote none. It returns `Err` exactly when the vendor fails. |
| `CuptiPCSamplingUtils.GetSassToSourceCorrelation` | csrc/include/Profiler/Cupti/CuptiPCSamplingUtils.h:43-68 | Issues one call that forwards the caller's `checkErrors`. The call carries line 0 and NULL names. The result is `Err` exactly in strict mode with a failing vendor. Then no vendor memory is copied or freed, and the heap holds exactly the old heap plus the names the vendor allocated in that call. Otherwise the result is: the line number the vendor wrote, or 0; each name as a copy of the vendor string, or `""` when its pointer is NULL, the two names handled independently. The vendor heap is exactly as before the call, so nothing leaks and nothing else is freed. The memory events are exactly "copy file, copy dir, free file, free dir", each only for a non-NULL pointer. |
| `CuptiPCSamplingUtils.ReleaseDiscipline` | csrc/include/Profiler/Cupti/CuptiPCSamplingUtils.h:58-66 | For every vendor reply, a pointer is non-NULL exactly when the vendor reported that name. The addresses freed are exactly the non-NULL name pointers. No address is freed twice. Each free comes after a copy of the same address. |
| `CuptiPCSamplingUtils.AllocPCSamplingData` | csrc/include/Profiler/Cupti/CuptiPCSamplingUtils.h:71-90 | Returns a fresh buffer with the struct-size tag and `collectNumPcs == N`. Its sample, PC-count and range fields are 0. `pPcData` is a fresh array of N records, each zero except for `stallReason`. Each `stallReason` is a fresh, non-NULL, zeroed array of length M, and no two records share one. |
| `CuptiPCSamplingUtils.EnablePCSampling` | csrc/include/Profiler/Cupti/CuptiPCSamplingUtils.h:93-100 | Issues one strict enable call with its size tag and the context. It succeeds exactly when the vendor does, and vendor memory is untouched. |
| `CuptiPCSamplingUtils.StartPCSampling` | csrc/include/Profiler/Cupti/CuptiPCSamplingUtils.h:103-110 | Issues one strict start call with its size tag and the context. It succeeds exactly when the vendor does. |
| `CuptiPCSamplingUtils.StopPCSampling` | csrc/include/Profiler/Cupti/CuptiPCSamplingUtils.h:113-120 | Issues one strict stop call with its size tag and the context. It succeeds exactly when the vendor does. |
| `CuptiPCSamplingUtils.GetPCSamplingData` | csrc/include/Profiler/Cupti/CuptiPCSamplingUtils.h:123-132 | Issues one strict get-data call that carries the caller's own buffer (the same reference) with its size tag and the context. The vendor may fill the buffer in place: its counters, its PC records and their stall-reason arrays may change. The buffer keeps its size tag, its capacity and its record array, and no other caller memory changes. It succeeds exactly when the vendor does. |
| `CuptiPCSamplingUtils.SetConfigurationAttribute` | csrc/include/Profiler/Cupti/CuptiPCSamplingUtils.h:135-146 | Issues one strict call with `numAttributes` equal to the number of attributes and the caller's own attribute storage (the same array), which the vendor may write into. No other caller memory changes. It succeeds exactly when the vendor does. |

## Left out

- The CUPTI transport itself (`cupti::enableCallback`, `pcSampling*`, `getCubinCrc`, `getSassToSourceCorrelation` in `Driver/GPU/CuptiApi.h`). That file is not part of this model. It is replaced by the recording objects described above. The CRC algorithm and the source-line lookup happen on the vendor side and appear only as reply parameters.
- The numeric values of the vendor callback ids are defined in the CUPTI headers, which are not part of this model. Each named id gets a stand-in value that is non-zero and distinct within its domain. Every property proved relies only on that, and on 0 being what an uninitialised slot holds.
- `CuptiCallbacks.IsDriverApiLaunch`: the query compares bare numbers and ignores the domain. Whether an id from another catalog happens to equal a driver-launch id depends on the vendor's numbering, so no claim across domains is made.
- What the strict checking layer does when a call fails (throw or abort) is defined in code not shown. The model stops the wrapper and returns `Err`. If a failing strict correlation call had allocated names, they stay live: the contract of `CuptiPCSamplingUtils.GetSassToSourceCorrelation` states that heap exactly.
- CuptiApi.NameAddresses: the stand-in vendor always gives a reported file name and a reported directory name two distinct, fresh addresses. `ReleaseDiscipline`'s "no address is freed twice" relies on this. A vendor that returned one pointer for both names would make the source free it twice (csrc/include/Profiler/Cupti/CuptiPCSamplingUtils.h:63-66). That case is not modelled.
- CuptiPCSamplingUtils.AllocPCSamplingData: `calloc(0, …)` may return NULL or a unique pointer; the C standard leaves this to the implementation. The model takes every stall-reason allocation, including one of length 0, to be a fresh non-NULL array. So its non-NULL and pairwise-distinct promises are stronger than the source guarantees when `numValidStallReasons == 0`.
- CuptiPCSamplingUtils.GetSassToSourceCorrelation: the template default `checkErrors = true` (csrc/include/Profiler/Cupti/CuptiPCSamplingUtils.h:43) has no Dafny counterpart. Callers pass the flag explicitly; passing `true` gives the default's behaviour.
- CuptiApi.CallbackApi.unsupported: whether the vendor rejects an `enableCallback` depends only on (domain, id), and that set is fixed. A call that fails once and succeeds another time is not modelled. In particular, slot 20 of the driver table (the second `cuStreamEndCapture`) cannot fail once slot 14 succeeded with the same id in the same toggle.
- The sampling session state machine (disabled, enabled, started) lives inside the vendor. The wrappers neither check nor track it, so the model adds no guards for it.
- CuptiPCSamplingUtils.GetPCSamplingData: what the vendor writes into the buffer (`totalSamples`, `remainingNumPcs`, the PC records, the stall-reason counters) is left open, so the contract says nothing about those values after the call. It also takes the vendor to keep the buffer's size tag, capacity and record array, and to write no memory outside the buffer, its record array and the stall-reason arrays those records point to. The caller's drain loop is not part of this model.
- CuptiPCSamplingUtils.SetConfigurationAttribute: the vendor may write into the caller's attribute array (csrc/include/Profiler/Cupti/CuptiPCSamplingUtils.h:137 takes it as a non-const reference). What it writes, such as a per-attribute status, is left open, so the contract says nothing about the array's contents after the call. `CuptiApi.ConfigurationInfo` keeps only the attribute kind and value.
- `calloc` failure: the source dereferences the result without a NULL check, so the model assumes allocation succeeds.
- Concrete `sizeof` values and struct layout. A size tag is one value per record kind. A PC record keeps only the fields listed in `CuptiApi.PCData`.
- `size_t` widths: sizes and counts are unbounded naturals. The 32- and 64-bit fields are subset types of their ranges.
- Concurrency and the lifetime of subscriber handles belong to the orchestrator.
- `csrc/include/Profiler/Cupti/CuptiCallbacks.h` holds declarations only. Its behaviour is covered by the `.cpp` file.
