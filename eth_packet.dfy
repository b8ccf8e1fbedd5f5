/**
 * The part of a Livox Ethernet data packet that the data handler interprets:
 * the one-byte `data_type` tag in the 18-byte prefix, and the point count
 * derived from the packet's total size.
 *
 * The source computes the count in C++ integer types: `size` is a `uint16_t`,
 * the prefix length a `size_t`, so `size - 18` is a `size_t` subtraction that
 * wraps modulo 2^64 when `size < 18`, and the quotient is truncated back into
 * the `uint16_t` variable it is stored in. Both steps are written out here.
 */
module EthPacket {
  import opened Wrappers

  type uint8 = x: int | 0 <= x < 0x100
  type uint16 = x: int | 0 <= x < 0x1_0000

  /** `size_t` is taken to be 64 bits wide (an LP64 target). */
  const SIZE_T_MODULUS: int := 0x1_0000_0000_0000_0000
  const UINT16_MODULUS: int := 0x1_0000
  const UINT16_MAX: int := 0xFFFF

  const PREFIX_DATA_SIZE: nat := 18
  const CARTESIAN_POINT_SIZE: nat := 13
  const SPHERICAL_POINT_SIZE: nat := 9

  /** The packet as seen through `LivoxEthPacket *`: only `data_type` is read. */
  datatype Packet = Packet(dataType: uint8)

  /** Tag 0 is Cartesian coordinates, tag 1 spherical; any other tag is unknown. */
  predicate IsKnownFormat(dataType: uint8) {
    dataType == 0 || dataType == 1
  }

  /** Width in bytes of one point of a known format. */
  function PointSize(dataType: uint8): nat
    requires IsKnownFormat(dataType)
  {
    if dataType == 0 then CARTESIAN_POINT_SIZE else SPHERICAL_POINT_SIZE
  }

  /** `a - b` as an unsigned 64-bit subtraction. */
  function SizeTSub(a: nat, b: nat): nat
  {
    (a - b) % SIZE_T_MODULUS
  }

  /** Conversion of an unsigned value into `uint16_t`: keeps the low 16 bits. */
  function ToUint16(x: nat): uint16
  {
    x % UINT16_MODULUS
  }

  /**
   * The count the handler passes to the callback, or None when the tag is
   * unknown and the packet is dropped.
   */
  function PointCount(size: uint16, dataType: uint8): (r: Option<uint16>)
    ensures r.Some? <==> IsKnownFormat(dataType)
  {
    if dataType == 0 then
      Some(ToUint16(SizeTSub(size, PREFIX_DATA_SIZE) / CARTESIAN_POINT_SIZE))
    else if dataType == 1 then
      Some(ToUint16(SizeTSub(size, PREFIX_DATA_SIZE) / SPHERICAL_POINT_SIZE))
    else
      None
  }

  /**
   * For a packet at least as long as its prefix no wrap-around happens: the
   * count is the largest number of whole points that fit after the prefix,
   * and any remainder shorter than one point is discarded.
   */
  lemma PointCountFits(size: uint16, dataType: uint8)
    requires IsKnownFormat(dataType) && size >= PREFIX_DATA_SIZE
    ensures PointCount(size, dataType).Some?
    ensures var n := PointCount(size, dataType).value;
      PREFIX_DATA_SIZE + PointSize(dataType) * n <= size < PREFIX_DATA_SIZE + PointSize(dataType) * (n + 1)
  {
  }

  /**
   * A packet of exactly `18 + width * n` bytes carries `n` points: 18 + 13n
   * gives n Cartesian points, 18 + 9n gives n spherical points.
   */
  lemma PointCountExact(n: nat, dataType: uint8)
    requires IsKnownFormat(dataType)
    requires PREFIX_DATA_SIZE + PointSize(dataType) * n <= UINT16_MAX
    ensures PointCount(PREFIX_DATA_SIZE + PointSize(dataType) * n, dataType) == Some(n)
  {
  }

  /** The most points of a known format that any packet with a 16-bit size can hold. */
  function MaxPointCount(dataType: uint8): nat
    requires IsKnownFormat(dataType)
  {
    (UINT16_MAX - PREFIX_DATA_SIZE) / PointSize(dataType)
  }

  /**
   * A packet shorter than its prefix is not dropped: the subtraction wraps and
   * the truncated quotient claims at least as many points as the largest
   * possible packet, and at most two more.
   */
  lemma ShortPacketOverclaims(size: uint16, dataType: uint8)
    requires IsKnownFormat(dataType) && size < PREFIX_DATA_SIZE
    ensures PointCount(size, dataType).Some?
    ensures PointCount(size, dataType).value >= MaxPointCount(dataType)
    ensures PointCount(size, dataType).value <= MaxPointCount(dataType) + 2
  {
    var v := SizeTSub(size, PREFIX_DATA_SIZE);
    assert v == SIZE_T_MODULUS - PREFIX_DATA_SIZE + size;
    if dataType == 0 {
      // The quotient is 65536 * 21651921285435 + 5039 plus at most 2.
      var q := v / CARTESIAN_POINT_SIZE;
      assert 1418980313362273199 <= q <= 1418980313362273201;
      assert q == UINT16_MODULUS * 21651921285435 + (q - 1418980313362268160);
      assert ToUint16(q) == q - 1418980313362268160;
    } else {
      // The quotient is 65536 * 31274997412295 + 7279 plus at most 2.
      var q := v / SPHERICAL_POINT_SIZE;
      assert 2049638230412172399 <= q <= 2049638230412172401;
      assert q == UINT16_MODULUS * 31274997412295 + (q - 2049638230412165120);
      assert ToUint16(q) == q - 2049638230412165120;
    }
  }
}
