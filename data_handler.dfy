/**
 * The Livox SDK data handler: a fixed table of per-device data callbacks,
 * the data-path dispatch that feeds it, and the lazily chosen topology
 * strategy (hub or directly attached lidars) that device registration is
 * delegated to.
 *
 * Collaborators whose code is not part of this model are replaced by the
 * answers they give, passed in as parameters: the device manager's mode
 * query, the strategy's `Init` and `AddDevice` results, and whether the APR
 * pool could be created. Every call the handler makes into a collaborator is
 * recorded, in order, in the ghost `history`.
 */
module DataHandling {
  import opened Wrappers
  import opened EthPacket

  /** Identity of a user-supplied `DataCallback`; an empty std::function is None. */
  datatype DataCallback = DataCallback(id: nat)

  /** The device record handed to the strategy; the handler never looks inside. */
  datatype DeviceInfo = DeviceInfo(handle: uint8)

  /** What `device_manager().device_mode()` reports, after the cast to DeviceMode. */
  datatype DeviceMode = ModeHub | ModeLidar | ModeOther(raw: int)

  datatype StrategyKind = HubStrategy | LidarStrategy

  /** The strategy the handler builds for a reported mode, if any. */
  function StrategyFor(mode: DeviceMode): Option<StrategyKind> {
    match mode
    case ModeHub => Some(HubStrategy)
    case ModeLidar => Some(LidarStrategy)
    case ModeOther(_) => None
  }

  /** A `HubDataHandlerImpl` or `LidarDataHandlerImpl` object; its internals are not modelled. */
  class StrategyImpl {
    const kind: StrategyKind

    constructor (kind: StrategyKind)
      ensures this.kind == kind
    {
      this.kind := kind;
    }
  }

  /** One call from the handler into a collaborator. */
  datatype Event =
    | ModeQueried(mode: DeviceMode)
    | StrategyCreated(strategy: StrategyImpl, withPool: bool)
    | StrategyInit(strategy: StrategyImpl, ok: bool)
    | StrategyAddDevice(strategy: StrategyImpl, info: DeviceInfo, ok: bool)
    | StrategyRemoveDevice(strategy: StrategyImpl, handle: uint8)
    | StrategyDestroyed(strategy: StrategyImpl)
    | PoolCreated(ok: bool)
    | PoolDestroyed

  /** A call of a registered callback: `cb(handle, packet, count)`. */
  datatype Invocation = Invocation(callback: DataCallback, handle: uint8, packet: Packet, count: uint16)

  /** How many times a history asked the device manager for the mode. */
  ghost function ModeQueryCount(h: seq<Event>): nat {
    if h == [] then 0
    else (if h[0].ModeQueried? then 1 else 0) + ModeQueryCount(h[1..])
  }

  /** The queries of two histories run one after the other add up. */
  lemma {:induction false} ModeQueryCountAppend(a: seq<Event>, b: seq<Event>)
    ensures ModeQueryCount(a + b) == ModeQueryCount(a) + ModeQueryCount(b)
  {
    if a != [] {
      assert (a + b)[1..] == a[1..] + b;
      ModeQueryCountAppend(a[1..], b);
    } else {
      assert a + b == b;
    }
  }

  class DataHandler {
    /** `callbacks_`: one optional callback per device handle; never resized. */
    const callbacks: array<Option<DataCallback>>
    /** `impl_`: the topology strategy, null until a strategy initialises. */
    var impl: StrategyImpl?
    /** `mem_pool_` is non-null. */
    var poolLive: bool

    /** The topology mode the handler is locked to while it holds a strategy. */
    ghost var topology: Option<DeviceMode>
    ghost var history: seq<Event>

    /**
     * A strategy is held exactly while a mode is locked in, it is of the kind
     * built for that mode, and its `Init` was called and succeeded.
     */
    ghost predicate Valid()
      reads this
    {
      (impl == null <==> topology == None) &&
      (impl != null ==>
         StrategyFor(topology.value) == Some(impl.kind) &&
         StrategyInit(impl, true) in history)
    }

    /** The number of times this handler has queried the device mode. */
    ghost function ModeQueries(): nat
      reads this
    {
      ModeQueryCount(history)
    }

    constructor (capacity: nat)
      ensures Valid()
      ensures fresh(callbacks) && callbacks.Length == capacity
      ensures forall h :: 0 <= h < capacity ==> callbacks[h] == None
      ensures impl == null && !poolLive && history == [] && ModeQueries() == 0
    {
      callbacks := new Option<DataCallback>[capacity](_ => None);
      impl := null;
      poolLive := false;
      topology := None;
      history := [];
    }

    /** Registers (or, with None, clears) the callback for one handle. */
    method AddDataListener(handle: uint8, cb: Option<DataCallback>) returns (ok: bool)
      modifies callbacks
      ensures ok <==> handle < callbacks.Length
      ensures ok ==> callbacks[handle] == cb
      ensures forall h :: 0 <= h < callbacks.Length && h != handle ==> callbacks[h] == old(callbacks[h])
      ensures callbacks[..] == if ok then old(callbacks[..])[handle := cb] else old(callbacks[..])
    {
      if handle >= callbacks.Length {
        return false;
      }
      callbacks[handle] := cb;
      return true;
    }

    /**
     * Registers a device. Without a strategy, queries the mode, builds the
     * hub or lidar strategy on the handler's pool and initialises it; an
     * unknown mode builds nothing and a failed `Init` destroys the strategy
     * again, and either way the call fails with no strategy left, so the next
     * call starts over. With a strategy, the call goes straight to it and the
     * mode is not queried.
     *
     * `modeReply`, `initOk` and `addOk` are the answers the device manager
     * and the strategy would give; `built` names the strategy this call
     * constructed.
     */
    method AddDevice(info: DeviceInfo, modeReply: DeviceMode, initOk: bool, addOk: bool)
      returns (ok: bool, ghost built: StrategyImpl?)
      requires Valid()
      modifies this
      ensures Valid()
      ensures poolLive == old(poolLive)
      ensures ModeQueries() == old(ModeQueries()) + (if old(impl) == null then 1 else 0)
      // A strategy exists: no mode query, same strategy, its answer.
      ensures old(impl) != null ==>
        impl == old(impl) && topology == old(topology) && built == null && ok == addOk &&
        history == old(history) + [StrategyAddDevice(impl, info, addOk)]
      // Unknown mode: nothing is built.
      ensures old(impl) == null && StrategyFor(modeReply) == None ==>
        impl == null && built == null && !ok &&
        history == old(history) + [ModeQueried(modeReply)]
      // Known mode: a new strategy of the matching kind, on the handler's pool.
      ensures old(impl) == null && StrategyFor(modeReply).Some? ==>
        built != null && fresh(built) && Some(built.kind) == StrategyFor(modeReply)
      ensures old(impl) == null && StrategyFor(modeReply).Some? && !initOk ==>
        impl == null && !ok &&
        history == old(history) + [ModeQueried(modeReply)] + [StrategyCreated(built, poolLive)]
                                + [StrategyInit(built, false)] + [StrategyDestroyed(built)]
      ensures old(impl) == null && StrategyFor(modeReply).Some? && initOk ==>
        impl == built && topology == Some(modeReply) && ok == addOk &&
        history == old(history) + [ModeQueried(modeReply)] + [StrategyCreated(built, poolLive)]
                                + [StrategyInit(built, true)] + [StrategyAddDevice(built, info, addOk)]
    {
      built := null;
      if impl == null {
        var mode := modeReply;
        Record(ModeQueried(mode));
        if mode == ModeHub {
          impl := new StrategyImpl(HubStrategy);
        } else if mode == ModeLidar {
          impl := new StrategyImpl(LidarStrategy);
        }
        if impl != null {
          built := impl;
          Record(StrategyCreated(impl, poolLive));
          Record(StrategyInit(impl, initOk));
        }
        if impl == null || !initOk {
          if impl != null {
            Record(StrategyDestroyed(impl));
          }
          impl := null;
          return false, built;
        }
        assert StrategyInit(impl, true) in history;
        topology := Some(mode);
      }
      Record(StrategyAddDevice(impl, info, addOk));
      ok := addOk;
    }

    /** Appends one collaborator call to the history; everything else is kept. */
    ghost method Record(e: Event)
      modifies this
      ensures history == old(history) + [e]
      ensures impl == old(impl) && topology == old(topology) && poolLive == old(poolLive)
      ensures ModeQueries() == old(ModeQueries()) + (if e.ModeQueried? then 1 else 0)
    {
      ModeQueryCountAppend(history, [e]);
      history := history + [e];
    }

    /** Creates the memory pool; `allocOk` is whether `apr_pool_create` succeeds. */
    method Init(allocOk: bool) returns (ok: bool)
      requires Valid()
      modifies this
      ensures Valid()
      ensures ok == allocOk && poolLive == allocOk
      ensures impl == old(impl) && topology == old(topology)
      ensures ModeQueries() == old(ModeQueries())
      ensures history == old(history) + [PoolCreated(allocOk)]
    {
      Record(PoolCreated(allocOk));
      poolLive := allocOk;
      if !allocOk {
        return false;
      }
      return true;
    }

    /**
     * Destroys the strategy, then the pool it borrows; each only if present,
     * so a second call does nothing.
     */
    method Uninit()
      requires Valid()
      modifies this
      ensures Valid()
      ensures impl == null && topology == None && !poolLive
      ensures history == old(history)
                         + (if old(impl) != null then [StrategyDestroyed(old(impl))] else [])
                         + (if old(poolLive) then [PoolDestroyed] else [])
      ensures ModeQueries() == old(ModeQueries())
    {
      if impl != null {
        Record(StrategyDestroyed(impl));
        impl := null;
        topology := None;
      }
      if poolLive {
        Record(PoolDestroyed);
        poolLive := false;
      }
    }

    /**
     * The data path: drops a null packet, an out-of-range handle and an
     * unknown format; otherwise derives the point count and, if a callback
     * is registered for the handle, reports the one call made of it.
     * Nothing in the handler changes.
     */
    method OnDataCallback(handle: uint8, data: Option<Packet>, size: uint16) returns (call: Option<Invocation>)
      ensures call.Some? <==>
        data.Some? && handle < callbacks.Length && IsKnownFormat(data.value.dataType) &&
        callbacks[handle].Some?
      ensures call.Some? ==>
        call.value == Invocation(callbacks[handle].value, handle, data.value,
                                 PointCount(size, data.value.dataType).value)
    {
      if data == None {
        return None;
      }
      var lidarData := data.value;
      if handle >= callbacks.Length {
        return None;
      }
      var cb := callbacks[handle];
      var count := PointCount(size, lidarData.dataType);
      if count == None {
        return None;
      }
      if cb != None {
        return Some(Invocation(cb.value, handle, lidarData, count.value));
      }
      return None;
    }

    /** Forwards a device removal to the strategy; a no-op without one. */
    method RemoveDevice(handle: uint8)
      requires Valid()
      modifies this
      ensures Valid()
      ensures impl == old(impl) && topology == old(topology) && poolLive == old(poolLive)
      ensures history == old(history) + (if old(impl) != null then [StrategyRemoveDevice(impl, handle)] else [])
      ensures ModeQueries() == old(ModeQueries())
    {
      if impl != null {
        Record(StrategyRemoveDevice(impl, handle));
      }
    }
  }
}
