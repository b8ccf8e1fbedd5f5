# Livox SDK data handler, modelled in Dafny

This project models `livox::DataHandler` from the Livox SDK core. It is the
layer between the packet transport and user code, and it has three jobs:

- It keeps a fixed table of per-device data callbacks, indexed by the
  device handle.
- It takes each raw Ethernet data packet and reads the packet's `data_type`
  tag. From the packet size it derives the number of points the packet
  carries: 13-byte Cartesian points or 9-byte spherical points after an
  18-byte prefix. It then calls the callback registered for the packet's
  handle.
- It picks the device-management strategy once and lazily: a hub strategy
  or a directly-attached-lidar strategy, chosen from the device manager's
  mode. It then delegates device addition and removal to that strategy. It
  also owns the memory pool the strategy uses.

Files:

- `wrappers.dfy`: `Option`. It stands for nullable pointers and empty
  `std::function` values.
- `eth_packet.dfy` (module `EthPacket`): the packet's format tag and the
  point-count derivation. The C++ integer behaviour is written out: the
  `size_t` subtraction wraps modulo 2^64, and the result is truncated to
  `uint16_t`.
- `data_handler.dfy` (module `DataHandling`): the class `DataHandler`. Its
  fields are `callbacks` (`callbacks_`, an array that is never resized),
  `impl` (`impl_`, a nullable `StrategyImpl`) and `poolLive` (whether
  `mem_pool_` is non-null). Its ghost state is:
  - `topology`: the mode the handler is locked to.
  - `history`: every call the handler makes into a collaborator, in order.
    These are mode queries, strategy construction, `Init`, `AddDevice`,
    `RemoveDevice` and destruction, and pool creation and destruction.
  - `Valid()`: a strategy is held exactly while a mode is locked in. The
    strategy is of the kind built for that mode, and its `Init` succeeded.
- `scenarios.dfy` (module `Scenarios`): client methods. Each drives a fresh
  handler through a few calls, and its outcome is proved from the class
  contracts alone.

Collaborators whose code is not part of this model become parameters that
carry the answer they would give. These are `device_manager().device_mode()`
(`modeReply`), the strategy's `Init()` and `AddDevice()` results (`initOk`,
`addOk`), and whether `apr_pool_create` succeeds (`allocOk`).

Behaviour of the code that a caller might not expect, all of it modelled:

- Only a null pointer is dropped. A packet shorter than 18 bytes is
  dispatched with a wrapped-around count (`ShortPacketOverclaims`,
  `ShortPacketDispatched`).
- Registering an empty `std::function` clears the slot. `AddDataListener`
  takes an `Option<DataCallback>` for this reason.
- A failed `AddDevice` leads to a fresh selection on the next call only when
  the mode was unknown or the strategy's `Init` failed. If the strategy
  exists and its own `AddDevice` returns false, the strategy stays selected.
- `Uninit` never releases the pool twice. A second `Init` without an
  `Uninit` in between overwrites `mem_pool_`, and the first pool is never
  destroyed. The history then records two `PoolCreated(true)` events and
  only one `PoolDestroyed`.

## Model

| member | source | states |
|---|---|---|
| `EthPacket.PointCount` | sdk_core/src/data_handler/data_handler.cpp:96-103 | a count is produced exactly when the tag is 0 (Cartesian) or 1 (spherical); every other tag drops the packet |
| `EthPacket.PointCountFits` | sdk_core/src/data_handler/data_handler.cpp:97-100 | for a packet of at least 18 bytes, the count is the largest number of whole points that fit after the 18-byte prefix (13 bytes per Cartesian point, 9 per spherical point); a shorter tail is discarded |
| `EthPacket.PointCountExact` | sdk_core/src/data_handler/data_handler.cpp:97-100 | a packet of 18 + 13·n bytes tagged 0 gives count n; one of 18 + 9·n bytes tagged 1 gives count n |
| `EthPacket.ShortPacketOverclaims` | sdk_core/src/data_handler/data_handler.cpp:98-100 | a packet shorter than 18 bytes with a known tag still gets a count; the wrapped 64-bit subtraction truncated to 16 bits yields at least the largest count any 16-bit size can carry, and at most two more |
| `DataHandling.ModeQueryCountAppend` | sdk_core/src/data_handler/data_handler.cpp:54-55 | the number of mode queries in two call histories run back to back is the sum of their counts, so each operation's contract can state how many queries it adds |
| `DataHandling.DataHandler.constructor` | sdk_core/src/data_handler/data_handler.cpp:37 | the default construction of the handler; the initial values, taken from `data_handler.h`, are: a new handler has a table of the given capacity with every slot empty, no strategy, no pool and an empty history |
| `DataHandling.DataHandler.AddDataListener` | sdk_core/src/data_handler/data_handler.cpp:45-51 | succeeds exactly when the handle is inside the table; on success the slot for that handle holds the new callback (overwriting any earlier one) and every other slot is unchanged; on failure the table is unchanged |
| `DataHandling.DataHandler.AddDevice` | sdk_core/src/data_handler/data_handler.cpp:53-68 | without a strategy: one mode query, then a hub or lidar strategy by mode; an unknown mode or a failed `Init` leaves no strategy and returns false; otherwise the new strategy is kept, locked to that mode, and its answer returned. With a strategy: no mode query, the same strategy, its answer returned. The pool flag is unchanged and the history grows by exactly these calls |
| `DataHandling.DataHandler.Init` | sdk_core/src/data_handler/data_handler.cpp:70-76 | returns whether the pool was created, the pool is live exactly then, and the strategy is untouched |
| `DataHandling.DataHandler.Uninit` | sdk_core/src/data_handler/data_handler.cpp:78-86 | afterwards there is no strategy, no locked mode and no pool; the strategy is destroyed before the pool, each only if present, so a second call records nothing |
| `DataHandling.DataHandler.OnDataCallback` | sdk_core/src/data_handler/data_handler.cpp:88-116 | one callback call is made exactly when the packet is non-null, the handle is in range, the tag is known and a callback is registered; that call passes the registered callback the handle, the packet and the derived point count; the handler is not changed |
| `DataHandling.DataHandler.RemoveDevice` | sdk_core/src/data_handler/data_handler.cpp:118-122 | forwards the handle to the current strategy; with no strategy nothing happens; strategy, mode and pool are unchanged |
| `Scenarios.RegisterThenDispatch` | sdk_core/src/data_handler/data_handler.cpp:45-116 | with capacity 5, registering for handle 3 succeeds, and a spherical packet of 18 + 9·40 bytes reaches that callback with handle 3 and count 40 |
| `Scenarios.RegisterOutOfRange` | sdk_core/src/data_handler/data_handler.cpp:45-48 | with capacity 5, registering for handle 9 fails and every slot stays empty |
| `Scenarios.ReRegisterOverwrites` | sdk_core/src/data_handler/data_handler.cpp:49-50 | a second registration for the same handle replaces the first: dispatch reaches only the second callback |
| `Scenarios.ShortPacketDispatched` | sdk_core/src/data_handler/data_handler.cpp:88-116 | a zero-length Cartesian packet for a registered handle is dispatched, with a count of at least the largest legitimate Cartesian count |
| `Scenarios.ModeSelectedOnce` | sdk_core/src/data_handler/data_handler.cpp:53-68 | after a hub strategy is selected, a later `AddDevice` whose mode reply would be lidar still goes to the hub strategy and succeeds; the ghost query count returned is 1 |
| `Scenarios.RetryAfterFailedInit` | sdk_core/src/data_handler/data_handler.cpp:53-68 | a failed strategy `Init` makes `AddDevice` fail, and the next call queries the mode again and selects the lidar strategy; the ghost query count returned is 2 |
| `Scenarios.ReselectAfterUninit` | sdk_core/src/data_handler/data_handler.cpp:53-86 | after `Uninit` the pool is released; the returned ghost `quiet` is true, so a second `Uninit` and a `RemoveDevice` record nothing; `Init` and `AddDevice` then select the lidar strategy afresh, and the ghost query count returned is 2 |

## Left out

- The `data_handler()` function-static singleton (lines 36-39): the model constructs handlers explicitly.
- `data_handler.h` is not part of this model. The table capacity, which the header fixes, becomes the constructor parameter.
- The commented-out logging (lines 105-113).
- The layout of `LivoxEthPacket` apart from the `data_type` byte. The packed-struct reinterpretation of the raw buffer is not modelled, and a packet is a value holding only its tag.
- The internals of `HubDataHandlerImpl` and `LidarDataHandlerImpl`. These files are not part of this model. A strategy is an object with a kind, and its `Init` and `AddDevice` results are parameters. Its `RemoveDevice` is recorded in the history only.
- `device_manager().device_mode()`: an external query. Its answer is the `modeReply` parameter, and the mode enumeration's numeric values become `ModeHub`, `ModeLidar` and `ModeOther`.
- The APR pool (`apr_pool_create`, `apr_pool_destroy`): a foreign library, modelled as the `poolLive` flag. The allocation outcome is the `allocOk` parameter.
- Init: assumes that a failed `apr_pool_create` leaves `mem_pool_` null, so the model has no live pool after a failed `Init`.
- Which objects the callback and the strategies may touch, and thread safety between the data path and the control path. The code takes no locks, and the model is sequential.
- `size_t` is taken to be 64 bits wide. On a 32-bit target the wrapped counts of `ShortPacketOverclaims` would differ, though the packet would still be dispatched.
