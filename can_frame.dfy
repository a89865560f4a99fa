/**
 * The three identifier layouts of ThingSet over CAN, as values, with the
 * packing that ORs the field setters together and the unpacking that reads
 * the fields back with the getters.
 *
 *   Channel (ISO-TP request/response): priority | type 0 | bus-id   | target | source
 *   Control / report (single frame):   priority | type 2 | data-id (16 bits)  | source
 *   Network management:                priority | type 3 | variable | target | source
 *
 * The variable byte of a network-management frame is the random nonce of an
 * address-discovery frame or the bus-id of an address-claim frame.
 */
module CanFrame {
  import opened CanId

  datatype Option<T> = None | Some(value: T)

  /**
   * One constructor per layout. `Single` is the type-0x2 layout shared by
   * control frames (priority codes 0-3) and report frames (codes 4-7); which
   * of the two a frame is follows from its priority (see CanClassify).
   */
  datatype Frame =
    | Channel(prio: PrioCode, busId: Byte, target: Byte, source: Byte)
    | Single(prio: PrioCode, dataId: DataId, source: Byte)
    | Network(prio: PrioCode, variable: Byte, target: Byte, source: Byte)

  /**
   * The identifier of a frame: every field shifted into place and ORed
   * together. It fits the 29 identifier bits (UnpackPack reads every field
   * back).
   */
  function Pack(f: Frame): (id: bv32)
    ensures id & !ID_MASK == 0
  {
    match f
    case Channel(p, b, t, s) =>
      PrioSet(p) | TYPE_CHANNEL | BusIdSet(b) | TargetSet(t) | SourceSet(s)
    case Single(p, d, s) =>
      PrioSet(p) | TYPE_REPORT | DataIdSet(d) | SourceSet(s)
    case Network(p, v, t, s) =>
      PrioSet(p) | TYPE_NETWORK | RandSet(v) | TargetSet(t) | SourceSet(s)
  }

  /**
   * The frame an identifier encodes, chosen by its type bits; type 1 is not a
   * ThingSet layout (PackUnpack gives the inverse direction).
   */
  function Unpack(id: bv32): (r: Option<Frame>)
    ensures r.None? <==> id & TYPE_MASK == 0x1 << 24
  {
    var t := id & TYPE_MASK;
    var p := PrioGet(id);
    if t == TYPE_CHANNEL then
      Some(Channel(p, BusIdGet(id), TargetGet(id), SourceGet(id)))
    else if t == TYPE_REPORT then
      Some(Single(p, DataIdGet(id), SourceGet(id)))
    else if t == TYPE_NETWORK then
      Some(Network(p, RandGet(id), TargetGet(id), SourceGet(id)))
    else
      None
  }

  /** Unpacking a packed frame gives the frame back. */
  lemma UnpackPack(f: Frame)
    ensures Unpack(Pack(f)) == Some(f)
  {
    match f
    case Channel(p, b, t, s) => UnpackPackChannel(p, b, t, s);
    case Single(p, d, s) => UnpackPackSingle(p, d, s);
    case Network(p, v, t, s) => UnpackPackNetwork(p, v, t, s);
  }

  /** UnpackPack for the channel layout. */
  lemma UnpackPackChannel(p: PrioCode, b: Byte, t: Byte, s: Byte)
    ensures Unpack(Pack(Channel(p, b, t, s))) == Some(Channel(p, b, t, s))
  {
    var id := Pack(Channel(p, b, t, s));
    ComposeThenGet(p, TYPE_CHANNEL, b, t, s);
    assert id & TYPE_MASK == TYPE_CHANNEL;
  }

  /** UnpackPack for the report layout. */
  lemma UnpackPackSingle(p: PrioCode, d: DataId, s: Byte)
    ensures Unpack(Pack(Single(p, d, s))) == Some(Single(p, d, s))
  {
    var id := Pack(Single(p, d, s));
    ComposeDataIdThenGet(p, TYPE_REPORT, d, s);
    assert id & TYPE_MASK == TYPE_REPORT;
  }

  /** UnpackPack for the network-management layout. */
  lemma UnpackPackNetwork(p: PrioCode, v: Byte, t: Byte, s: Byte)
    ensures Unpack(Pack(Network(p, v, t, s))) == Some(Network(p, v, t, s))
  {
    var id := Pack(Network(p, v, t, s));
    RandIsBusId(v);
    assert id == PrioSet(p) | TYPE_NETWORK | BusIdSet(v) | TargetSet(t) | SourceSet(s);
    ComposeThenGet(p, TYPE_NETWORK, v, t, s);
    assert id & TYPE_MASK == TYPE_NETWORK;
    RandIsBusId(id);
  }

  /**
   * Packing the frame an identifier encodes gives the identifier back exactly
   * when none of bits 29-31 is set.
   */
  lemma PackUnpack(id: bv32)
    requires Unpack(id).Some?
    ensures Pack(Unpack(id).value) == id <==> id & !ID_MASK == 0
  {
    var t := id & TYPE_MASK;
    if t == TYPE_CHANNEL {
      RepackChannel(id);
    } else if t == TYPE_REPORT {
      RepackSingle(id);
    } else {
      RepackNetwork(id);
    }
    InIdBits(id);
  }

  /** PackUnpack for the channel layout. */
  lemma RepackChannel(id: bv32)
    requires id & TYPE_MASK == TYPE_CHANNEL
    ensures Pack(Unpack(id).value) == id & ID_MASK
  {
    assert Pack(Unpack(id).value)
        == PrioSet(PrioGet(id)) | (id & TYPE_MASK) | BusIdSet(BusIdGet(id))
           | TargetSet(TargetGet(id)) | SourceSet(SourceGet(id));
    Reassemble(id);
  }

  /** PackUnpack for the network-management layout. */
  lemma RepackNetwork(id: bv32)
    requires id & TYPE_MASK == TYPE_NETWORK
    ensures Pack(Unpack(id).value) == id & ID_MASK
  {
    var v := RandGet(id);
    assert Unpack(id) == Some(Network(PrioGet(id), v, TargetGet(id), SourceGet(id)));
    RandIsBusId(id);
    RandIsBusId(v);
    assert RandSet(v) == BusIdSet(BusIdGet(id));
    Reassemble(id);
  }

  /** PackUnpack for the report layout. */
  lemma RepackSingle(id: bv32)
    requires id & TYPE_MASK == TYPE_REPORT
    ensures Pack(Unpack(id).value) == id & ID_MASK
  {
    assert Pack(Unpack(id).value)
        == PrioSet(PrioGet(id)) | (id & TYPE_MASK) | DataIdSet(DataIdGet(id)) | SourceSet(SourceGet(id));
    ReassembleDataId(id);
  }

  /** Distinct frames have distinct identifiers. */
  lemma PackInjective(f: Frame, g: Frame)
    ensures Pack(f) == Pack(g) ==> f == g
  {
    UnpackPack(f);
    UnpackPack(g);
  }

  /**
   * Every 29-bit identifier whose type bits name one of the three layouts is
   * the packing of some frame: the layouts leave no identifier bit unused.
   */
  lemma PackOnto(id: bv32)
    requires id & !ID_MASK == 0
    requires id & TYPE_MASK != 0x1 << 24
    ensures exists f :: Pack(f) == id
  {
    PackUnpack(id);
    assert Pack(Unpack(id).value) == id;
  }

  /**
   * Conversely every packed frame is a 29-bit identifier whose type bits name
   * a layout: with PackOnto, the identifiers Pack reaches are exactly these.
   */
  lemma PackInRange(f: Frame)
    ensures Pack(f) & !ID_MASK == 0
    ensures Pack(f) & TYPE_MASK != 0x1 << 24
  {
    UnpackPack(f);
  }

  /**
   * With the channel priority and the default bus-id a channel identifier is
   * the normal fixed addressing format of ISO 15765-2 for a physically
   * addressed message: 0x18DA, then the target byte, then the source byte.
   */
  lemma ChannelIsIsoTpFixedAddressing(target: Byte, source: Byte)
    ensures Pack(Channel(6, BUS_ID_DEFAULT, target, source))
         == 0x18DA_0000 + target * 0x100 + source
  {}

  /** Channel frame priority 6, bus-id 0xDA, target 0x05, source 0x02. */
  lemma ChannelExample()
    ensures Pack(Channel(6, 0xDA, 0x05, 0x02)) == 0x18DA_0502
    ensures Unpack(0x18DA_0502) == Some(Channel(6, 0xDA, 0x05, 0x02))
  {}

  /** Report frame priority 7, data-id 0x1234, source 0x03. */
  lemma ReportExample()
    ensures Pack(Single(7, 0x1234, 0x03)) == 0x1E12_3403
    ensures BusIdGet(Pack(Single(7, 0x1234, 0x03))) == 0x12
    ensures TargetGet(Pack(Single(7, 0x1234, 0x03))) == 0x34
  {}
}
