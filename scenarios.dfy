/**
 * Client-side consequences of the handler's contracts: each method drives a
 * fresh handler through a short sequence of calls and states the outcome,
 * proved from the contracts alone.
 */
module Scenarios {
  import opened Wrappers
  import opened EthPacket
  import opened DataHandling

  /** A callback registered for handle 3 receives a 40-point spherical packet with count 40. */
  method RegisterThenDispatch() returns (registered: bool, call: Option<Invocation>)
    ensures registered
    ensures call == Some(Invocation(DataCallback(1), 3, Packet(1), 40))
  {
    var handler := new DataHandler(5);
    registered := handler.AddDataListener(3, Some(DataCallback(1)));
    PointCountExact(40, 1);
    call := handler.OnDataCallback(3, Some(Packet(1)), PREFIX_DATA_SIZE + SPHERICAL_POINT_SIZE * 40);
  }

  /** Registering for a handle beyond the table fails and leaves every slot empty. */
  method RegisterOutOfRange() returns (registered: bool, slots: seq<Option<DataCallback>>)
    ensures !registered
    ensures slots == seq(5, _ => None)
  {
    var handler := new DataHandler(5);
    registered := handler.AddDataListener(9, Some(DataCallback(1)));
    slots := handler.callbacks[..];
  }

  /** Registering twice for one handle keeps only the second callback. */
  method ReRegisterOverwrites() returns (call: Option<Invocation>)
    ensures call == Some(Invocation(DataCallback(2), 0, Packet(0), 0))
  {
    var handler := new DataHandler(1);
    var ok := handler.AddDataListener(0, Some(DataCallback(1)));
    ok := handler.AddDataListener(0, Some(DataCallback(2)));
    PointCountExact(0, 0);
    call := handler.OnDataCallback(0, Some(Packet(0)), PREFIX_DATA_SIZE);
  }

  /** A zero-length Cartesian packet is still dispatched, with a wrapped-around count. */
  method ShortPacketDispatched() returns (call: Option<Invocation>)
    ensures call.Some? && call.value.count >= MaxPointCount(0)
  {
    var handler := new DataHandler(1);
    var ok := handler.AddDataListener(0, Some(DataCallback(1)));
    ShortPacketOverclaims(0, 0);
    call := handler.OnDataCallback(0, Some(Packet(0)), 0);
  }

  /**
   * The mode is queried on the first successful registration only; a later
   * registration reporting another mode still goes to the hub strategy.
   */
  method ModeSelectedOnce() returns (first: bool, second: bool, kind: Option<StrategyKind>, ghost queries: nat)
    ensures first && second && kind == Some(HubStrategy)
    ensures queries == 1
  {
    var handler := new DataHandler(4);
    var pooled := handler.Init(true);
    ghost var built: StrategyImpl?;
    first, built := handler.AddDevice(DeviceInfo(0), ModeHub, true, true);
    ghost var strategy := handler.impl;
    second, built := handler.AddDevice(DeviceInfo(1), ModeLidar, false, true);
    assert handler.impl == strategy;
    queries := handler.ModeQueries();
    kind := if handler.impl == null then None else Some(handler.impl.kind);
  }

  /** A failed strategy `Init` leaves nothing behind, and the next call queries again. */
  method RetryAfterFailedInit() returns (first: bool, second: bool, kind: Option<StrategyKind>, ghost queries: nat)
    ensures !first && second && kind == Some(LidarStrategy)
    ensures queries == 2
  {
    var handler := new DataHandler(4);
    var pooled := handler.Init(true);
    ghost var built: StrategyImpl?;
    first, built := handler.AddDevice(DeviceInfo(0), ModeHub, false, true);
    assert handler.impl == null;
    second, built := handler.AddDevice(DeviceInfo(0), ModeLidar, true, true);
    queries := handler.ModeQueries();
    kind := if handler.impl == null then None else Some(handler.impl.kind);
  }

  /**
   * After `Uninit` the pool is gone; a second `Uninit` and a `RemoveDevice`
   * record nothing (`quiet`); `Init` and `AddDevice` then select a strategy
   * from scratch, querying the mode a second time.
   */
  method ReselectAfterUninit() returns (live: bool, kind: Option<StrategyKind>, ghost quiet: bool, ghost queries: nat)
    ensures !live && kind == Some(LidarStrategy)
    ensures quiet
    ensures queries == 2
  {
    var handler := new DataHandler(4);
    var pooled := handler.Init(true);
    var ok; ghost var built: StrategyImpl?;
    ok, built := handler.AddDevice(DeviceInfo(0), ModeHub, true, true);
    handler.Uninit();
    ghost var afterFirst := handler.history;
    handler.Uninit();
    live := handler.poolLive;
    handler.RemoveDevice(0);
    quiet := handler.history == afterFirst;
    pooled := handler.Init(true);
    ok, built := handler.AddDevice(DeviceInfo(0), ModeLidar, true, true);
    queries := handler.ModeQueries();
    kind := if handler.impl == null then None else Some(handler.impl.kind);
  }
}
