/**
 * The 29-bit extended CAN identifier used by ThingSet: field positions and
 * masks, the SET/GET accessor pair of every field, and the named priority,
 * message-type and address constants.
 *
 * The C accessors cast their argument to `uint32_t` and then shift and mask
 * it; a `uint32_t` is a `bv32` here, so `<<` drops the bits shifted past bit
 * 31 exactly as the C shift does. Note that Dafny's `&` binds tighter than
 * `<<`, hence the explicit parentheses.
 */
module CanId {

  /**
   * Field masks. The fields start at bit 0 (source address), 8 (target
   * address, and the 16-bit data-id), 16 (bus-id or random nonce), 24
   * (message type) and 26 (priority).
   */
  const SOURCE_MASK: bv32 := 0xFF << 0
  const TARGET_MASK: bv32 := 0xFF << 8
  const DATA_ID_MASK: bv32 := 0xFFFF << 8
  const BUS_ID_MASK: bv32 := 0xFF << 16
  const TYPE_MASK: bv32 := 0x3 << 24
  const PRIO_MASK: bv32 := 0x7 << 26

  /** The bits an extended (29-bit) CAN identifier can carry. */
  const ID_MASK: bv32 := 0x1FFF_FFFF

  /** Field values, held in the `uint32_t` word the accessors take. */
  type PrioCode = p: bv32 | p < 8
  type Byte = b: bv32 | b < 0x100
  type DataId = d: bv32 | d < 0x1_0000

  /** Reserved node addresses. */
  const ADDR_MAX: Byte := 0xFD
  const ADDR_ANONYMOUS: Byte := 0xFE
  const ADDR_BROADCAST: Byte := 0xFF

  /** Default bus-id: N_TAtype = physical in the normal fixed addressing of ISO 15765-2. */
  const BUS_ID_DEFAULT: Byte := 0xDA

  /** Message types, already shifted into the type field. */
  const TYPE_CHANNEL: bv32 := 0x0 << 24
  const TYPE_REPORT: bv32 := 0x2 << 24
  const TYPE_NETWORK: bv32 := 0x3 << 24

  /** Message priorities, already shifted into the priority field. */
  const PRIO_CONTROL_EMERGENCY: bv32 := 0x0 << 26
  const PRIO_CONTROL_HIGH: bv32 := 0x2 << 26
  const PRIO_CONTROL_LOW: bv32 := 0x3 << 26
  const PRIO_NETWORK_MGMT: bv32 := 0x4 << 26
  const PRIO_REPORT_HIGH: bv32 := 0x5 << 26
  const PRIO_CHANNEL: bv32 := 0x6 << 26
  const PRIO_REPORT_LOW: bv32 := 0x7 << 26

  // ---------------------------------------------------------------------
  // Accessors: each SET result lies inside its field, each GET result fits
  // the field width. How they undo each other is stated by the lemmas below.
  // ---------------------------------------------------------------------

  function SourceSet(addr: bv32): (id: bv32)
    ensures id & !SOURCE_MASK == 0
  {
    (addr << 0) & SOURCE_MASK
  }

  function SourceGet(id: bv32): (addr: bv32)
    ensures addr < 0x100
  {
    (id & SOURCE_MASK) >> 0
  }

  function TargetSet(addr: bv32): (id: bv32)
    ensures id & !TARGET_MASK == 0
  {
    (addr << 8) & TARGET_MASK
  }

  function TargetGet(id: bv32): (addr: bv32)
    ensures addr < 0x100
  {
    (id & TARGET_MASK) >> 8
  }

  function DataIdSet(dataId: bv32): (id: bv32)
    ensures id & !DATA_ID_MASK == 0
  {
    (dataId << 8) & DATA_ID_MASK
  }

  function DataIdGet(id: bv32): (dataId: bv32)
    ensures dataId < 0x1_0000
  {
    (id & DATA_ID_MASK) >> 8
  }

  function BusIdSet(busId: bv32): (id: bv32)
    ensures id & !BUS_ID_MASK == 0
  {
    (busId << 16) & BUS_ID_MASK
  }

  function BusIdGet(id: bv32): (busId: bv32)
    ensures busId < 0x100
  {
    (id & BUS_ID_MASK) >> 16
  }

  /** The random nonce of an address-discovery frame shares the bus-id byte. */
  function RandSet(rand: bv32): (id: bv32)
    ensures id & !BUS_ID_MASK == 0
  {
    BusIdSet(rand)
  }

  function RandGet(id: bv32): (rand: bv32)
    ensures rand < 0x100
  {
    BusIdGet(id)
  }

  /**
   * Unlike the other setters the priority setter does not mask: only the
   * bits shifted past bit 31 are lost, so a code of 8 or more reaches bits
   * 29-31 (see PrioSetInField).
   */
  function PrioSet(prio: bv32): (id: bv32)
    ensures id & !(PRIO_MASK | 0xE000_0000) == 0
  {
    prio << 26
  }

  function PrioGet(id: bv32): (prio: bv32)
    ensures prio < 8
  {
    (id & PRIO_MASK) >> 26
  }

  // ---------------------------------------------------------------------
  // Properties of the layout.
  // ---------------------------------------------------------------------

  /**
   * Round trips: a setter followed by its getter returns the argument cut to
   * the field width, hence the argument itself when it fits; a getter
   * followed by its setter returns exactly the field's bits of the identifier.
   */
  lemma SourceRoundTrip(addr: bv32, id: bv32)
    ensures SourceGet(SourceSet(addr)) == addr & 0xFF
    ensures addr < 0x100 ==> SourceGet(SourceSet(addr)) == addr
    ensures SourceSet(SourceGet(id)) == id & SOURCE_MASK
  {}

  lemma TargetRoundTrip(addr: bv32, id: bv32)
    ensures TargetGet(TargetSet(addr)) == addr & 0xFF
    ensures addr < 0x100 ==> TargetGet(TargetSet(addr)) == addr
    ensures TargetSet(TargetGet(id)) == id & TARGET_MASK
  {}

  lemma BusIdRoundTrip(busId: bv32, id: bv32)
    ensures BusIdGet(BusIdSet(busId)) == busId & 0xFF
    ensures busId < 0x100 ==> BusIdGet(BusIdSet(busId)) == busId
    ensures BusIdSet(BusIdGet(id)) == id & BUS_ID_MASK
  {}

  lemma DataIdRoundTrip(dataId: bv32, id: bv32)
    ensures DataIdGet(DataIdSet(dataId)) == dataId & 0xFFFF
    ensures dataId < 0x1_0000 ==> DataIdGet(DataIdSet(dataId)) == dataId
    ensures DataIdSet(DataIdGet(id)) == id & DATA_ID_MASK
  {}

  /** The priority round trip keeps the low three bits of the code. */
  lemma PrioRoundTrip(prio: bv32, id: bv32)
    ensures PrioGet(PrioSet(prio)) == prio & 7
    ensures prio < 8 ==> PrioGet(PrioSet(prio)) == prio
    ensures PrioSet(PrioGet(id)) == id & PRIO_MASK
  {}

  /** Remainders by powers of two are the low bits. */
  lemma LowByte(x: bv32)
    ensures x % 0x100 == x & 0xFF
  {}

  lemma LowWord(x: bv32)
    ensures x % 0x1_0000 == x & 0xFFFF
  {}

  lemma LowSixBits(x: bv32)
    ensures x % 64 == x & 63
  {}

  /**
   * The masking setters ignore every bit above their field width: SET(x)
   * equals SET(x mod 2^width), the remainder being the low bits.
   */
  lemma SourceSetTruncates(addr: bv32)
    ensures SourceSet(addr) == SourceSet(addr & 0xFF)
    ensures SourceSet(addr) == SourceSet(addr % 0x100)
  {
    LowByte(addr);
    assert SourceSet(addr) == SourceSet(addr & 0xFF);
  }

  lemma TargetSetTruncates(addr: bv32)
    ensures TargetSet(addr) == TargetSet(addr & 0xFF)
    ensures TargetSet(addr) == TargetSet(addr % 0x100)
  {
    LowByte(addr);
    assert TargetSet(addr) == TargetSet(addr & 0xFF);
  }

  lemma BusIdSetTruncates(busId: bv32)
    ensures BusIdSet(busId) == BusIdSet(busId & 0xFF)
    ensures BusIdSet(busId) == BusIdSet(busId % 0x100)
  {
    LowByte(busId);
    assert BusIdSet(busId) == BusIdSet(busId & 0xFF);
  }

  lemma DataIdSetTruncates(dataId: bv32)
    ensures DataIdSet(dataId) == DataIdSet(dataId & 0xFFFF)
    ensures DataIdSet(dataId) == DataIdSet(dataId % 0x1_0000)
  {
    LowWord(dataId);
    assert DataIdSet(dataId) == DataIdSet(dataId & 0xFFFF);
  }

  /**
   * The unmasked priority setter stays inside the priority field exactly
   * when the code, taken modulo 64 by the 32-bit shift, is below 8.
   */
  lemma PrioSetInField(prio: bv32)
    ensures PrioSet(prio) & !PRIO_MASK == 0 <==> prio % 64 < 8
    ensures PrioSet(prio) & !ID_MASK == 0 <==> prio % 64 < 8
  {
    LowSixBits(prio);
  }

  /** Code 8 lands in bit 29, outside the identifier; code 64 wraps to code 0. */
  lemma PrioSetOutOfRange()
    ensures PrioSet(8) == 0x2000_0000 && PrioSet(8) & !ID_MASK != 0
    ensures PrioSet(64) == PrioSet(0) == PRIO_CONTROL_EMERGENCY
  {}

  /** The random-nonce accessors are the bus-id accessors. */
  lemma RandIsBusId(x: bv32)
    ensures RandSet(x) == BusIdSet(x)
    ensures RandGet(x) == BusIdGet(x)
  {}

  /**
   * Source, target, bus-id, type and priority masks are pairwise disjoint and
   * together cover exactly the 29 identifier bits; the data-id field is the
   * bus-id field and the target field together.
   */
  lemma MasksPartitionId()
    ensures SOURCE_MASK & TARGET_MASK == 0 && SOURCE_MASK & BUS_ID_MASK == 0
    ensures SOURCE_MASK & TYPE_MASK == 0 && SOURCE_MASK & PRIO_MASK == 0
    ensures TARGET_MASK & BUS_ID_MASK == 0 && TARGET_MASK & TYPE_MASK == 0
    ensures TARGET_MASK & PRIO_MASK == 0 && BUS_ID_MASK & TYPE_MASK == 0
    ensures BUS_ID_MASK & PRIO_MASK == 0 && TYPE_MASK & PRIO_MASK == 0
    ensures SOURCE_MASK | TARGET_MASK | BUS_ID_MASK | TYPE_MASK | PRIO_MASK == ID_MASK
    ensures DATA_ID_MASK == BUS_ID_MASK | TARGET_MASK
  {}

  /**
   * OR-combining the setters of all fields and reading any one field back
   * yields that field's (truncated) value, whatever the other fields hold.
   */
  lemma ComposeThenGet(prio: bv32, msgType: bv32, busId: bv32, target: bv32, source: bv32)
    requires prio < 8
    requires msgType & !TYPE_MASK == 0
    ensures var id := PrioSet(prio) | msgType | BusIdSet(busId) | TargetSet(target) | SourceSet(source);
      && PrioGet(id) == prio
      && id & TYPE_MASK == msgType
      && BusIdGet(id) == busId & 0xFF
      && TargetGet(id) == target & 0xFF
      && SourceGet(id) == source & 0xFF
      && id & !ID_MASK == 0
  {}

  /** The same for the report layout, whose data-id fills bits 8-23. */
  lemma ComposeDataIdThenGet(prio: bv32, msgType: bv32, dataId: bv32, source: bv32)
    requires prio < 8
    requires msgType & !TYPE_MASK == 0
    ensures var id := PrioSet(prio) | msgType | DataIdSet(dataId) | SourceSet(source);
      && PrioGet(id) == prio
      && id & TYPE_MASK == msgType
      && DataIdGet(id) == dataId & 0xFFFF
      && SourceGet(id) == source & 0xFF
      && id & !ID_MASK == 0
  {}

  /** An identifier is unchanged by ID_MASK exactly when bits 29-31 are clear. */
  lemma InIdBits(id: bv32)
    ensures id & ID_MASK == id <==> id & !ID_MASK == 0
  {}

  /**
   * Reading every field of an identifier and writing them back rebuilds its
   * 29 identifier bits: the getters lose nothing but bits 29-31.
   */
  lemma Reassemble(id: bv32)
    ensures PrioSet(PrioGet(id)) | (id & TYPE_MASK) | BusIdSet(BusIdGet(id))
            | TargetSet(TargetGet(id)) | SourceSet(SourceGet(id)) == id & ID_MASK
  {}

  /** The same through the data-id field. */
  lemma ReassembleDataId(id: bv32)
    ensures PrioSet(PrioGet(id)) | (id & TYPE_MASK) | DataIdSet(DataIdGet(id))
            | SourceSet(SourceGet(id)) == id & ID_MASK
  {}

  /** The data-id reads as bus-id byte (high) followed by the target byte (low). */
  lemma DataIdSplit(id: bv32)
    ensures DataIdGet(id) == BusIdGet(id) * 0x100 + TargetGet(id)
  {}

  /** Writing a data-id writes its high byte as bus-id and its low byte as target. */
  lemma DataIdSetSplit(dataId: bv32)
    ensures DataIdSet(dataId) == BusIdSet(dataId >> 8) | TargetSet(dataId)
  {}

  /** Data-id 0x1234 puts 0x12 in bits 16-23 and 0x34 in bits 8-15. */
  lemma DataIdExample()
    ensures DataIdSet(0x1234) == 0x0012_3400
    ensures BusIdGet(DataIdSet(0x1234)) == 0x12 && TargetGet(DataIdSet(0x1234)) == 0x34
  {}

  /** Every named priority constant is the priority field holding its code. */
  lemma PriorityConstantCodes()
    ensures PRIO_CONTROL_EMERGENCY == PrioSet(0) && PrioGet(PRIO_CONTROL_EMERGENCY) == 0
    ensures PRIO_CONTROL_HIGH == PrioSet(2) && PrioGet(PRIO_CONTROL_HIGH) == 2
    ensures PRIO_CONTROL_LOW == PrioSet(3) && PrioGet(PRIO_CONTROL_LOW) == 3
    ensures PRIO_NETWORK_MGMT == PrioSet(4) && PrioGet(PRIO_NETWORK_MGMT) == 4
    ensures PRIO_REPORT_HIGH == PrioSet(5) && PrioGet(PRIO_REPORT_HIGH) == 5
    ensures PRIO_CHANNEL == PrioSet(6) && PrioGet(PRIO_CHANNEL) == 6
    ensures PRIO_REPORT_LOW == PrioSet(7) && PrioGet(PRIO_REPORT_LOW) == 7
  {}

  /** The type constants lie in the type field and are pairwise distinct. */
  lemma TypeConstants()
    ensures TYPE_CHANNEL & !TYPE_MASK == 0 && TYPE_REPORT & !TYPE_MASK == 0
    ensures TYPE_NETWORK & !TYPE_MASK == 0
    ensures TYPE_CHANNEL != TYPE_REPORT && TYPE_REPORT != TYPE_NETWORK
    ensures TYPE_CHANNEL != TYPE_NETWORK
  {}

  /** The reserved addresses sit above every assignable address, in this order. */
  lemma AddressConstants()
    ensures ADDR_MAX < ADDR_ANONYMOUS < ADDR_BROADCAST
    ensures ADDR_BROADCAST == 0xFF
  {}

  /**
   * CAN arbitration lets the numerically lower identifier win; since the
   * priority field holds the top bits, a lower priority code wins against
   * any identifier with a higher one, whatever the other fields hold.
   */
  lemma LowerPriorityWins(a: bv32, b: bv32)
    requires a & !ID_MASK == 0 && b & !ID_MASK == 0
    requires PrioGet(a) < PrioGet(b)
    ensures a < b
  {}
}
