# ThingSet CAN identifier layout in Dafny

ThingSet over CAN packs its addressing into the 29-bit extended CAN identifier.
The header `include/thingset/can.h` defines:

- a SET/GET macro pair for each field: source address, target address, 16-bit data-id, bus-id, random nonce and priority;
- the constants for message type, priority, reserved addresses and the default bus-id;
- the predicates that tell channel, report and control messages apart.

The model has three modules:

- `CanId` (`can_id.dfy`) holds the macros and constants.
  - `uint32_t` is modelled as `bv32`, so shifts and masks behave as in C.
  - Dafny's `&` binds tighter than `<<`, so every macro body is written with explicit parentheses.
- `CanFrame` (`can_frame.dfy`) gives the three layouts drawn in the header's diagram as one datatype `Frame`.
  - The layouts are channel/ISO-TP, single frame and network management.
  - The single-frame layout (constructor `Single`) carries both control frames (priority 0-3) and report frames (priority 4-7).
  - `Pack` ORs the setters together; `Unpack` selects the layout by the type bits and reads the fields with the getters.
  - The two are proved inverse in both directions, within the 29 identifier bits.
- `CanClassify` (`can_classify.dfy`) holds the classification predicates.
  - They are `IsChannel`, `IsReport` and `IsControl`.
  - The control predicate's type constant is a parameter, because the header uses `THINGSET_CAN_TYPE_CONTROL` without defining it.

## Model

| member | source | states |
|---|---|---|
| `CanId.SourceSet` | include/thingset/can.h:59-62 | the source setter only touches bits 0-7 |
| `CanId.SourceGet` | include/thingset/can.h:63-64 | the source getter yields a value below 0x100 |
| `CanId.TargetSet` | include/thingset/can.h:66-69 | the target setter only touches bits 8-15 |
| `CanId.TargetGet` | include/thingset/can.h:70-71 | the target getter yields a value below 0x100 |
| `CanId.DataIdSet` | include/thingset/can.h:78-81 | the data-id setter only touches bits 8-23 |
| `CanId.DataIdGet` | include/thingset/can.h:82-83 | the data-id getter yields a value below 0x10000 |
| `CanId.BusIdSet` | include/thingset/can.h:86-89 | the bus-id setter only touches bits 16-23 |
| `CanId.BusIdGet` | include/thingset/can.h:90-91 | the bus-id getter yields a value below 0x100 |
| `CanId.RandSet` | include/thingset/can.h:95 | the random-nonce setter only touches bits 16-23 |
| `CanId.RandGet` | include/thingset/can.h:96 | the random-nonce getter yields a value below 0x100 |
| `CanId.PrioSet` | include/thingset/can.h:107-109 | the unmasked priority setter touches nothing below bit 26 (it may reach bits 29-31) |
| `CanId.PrioGet` | include/thingset/can.h:110 | the priority getter yields a code below 8 |
| `CanId.SourceRoundTrip` | include/thingset/can.h:59-64 | GET(SET(a)) is a cut to 8 bits, so it equals a when a < 0x100; SET(GET(id)) is exactly the source bits of id |
| `CanId.TargetRoundTrip` | include/thingset/can.h:66-71 | the same for the target address |
| `CanId.DataIdRoundTrip` | include/thingset/can.h:78-83 | the same for the 16-bit data-id |
| `CanId.BusIdRoundTrip` | include/thingset/can.h:86-91 | the same for the bus-id |
| `CanId.PrioRoundTrip` | include/thingset/can.h:107-110 | GET(SET(p)) is p cut to 3 bits, so it equals p when p < 8; SET(GET(id)) is exactly the priority bits of id |
| `CanId.SourceSetTruncates` | include/thingset/can.h:61-62 | an oversized address is silently cut: SET(a) == SET(a & 0xFF) == SET(a mod 256) |
| `CanId.TargetSetTruncates` | include/thingset/can.h:68-69 | an oversized target address is cut to its low byte: SET(a) == SET(a mod 256) |
| `CanId.DataIdSetTruncates` | include/thingset/can.h:80-81 | an oversized data-id is cut to its low 16 bits: SET(d) == SET(d mod 65536) |
| `CanId.BusIdSetTruncates` | include/thingset/can.h:88-89 | an oversized bus-id is cut to its low byte: SET(b) == SET(b mod 256) |
| `CanId.PrioSetInField` | include/thingset/can.h:109 | the priority setter stays inside the priority field, and inside the 29 identifier bits, iff the code modulo 64 is below 8 |
| `CanId.PrioSetOutOfRange` | include/thingset/can.h:109 | code 8 sets bit 29, outside the identifier; code 64 wraps around to emergency priority |
| `CanId.RandIsBusId` | include/thingset/can.h:94-96 | the random-nonce accessors are the bus-id accessors |
| `CanId.MasksPartitionId` | include/thingset/can.h:58-110 | the five field masks are pairwise disjoint and their union is exactly the 29 identifier bits; the data-id mask is bus-id plus target |
| `CanId.ComposeThenGet` | include/thingset/can.h:17-31 | OR-ing priority, type, bus-id, target and source and then reading any field gives that field back, and the result fits 29 bits |
| `CanId.ComposeDataIdThenGet` | include/thingset/can.h:33-42 | the same for priority, type, data-id and source |
| `CanId.Reassemble` | include/thingset/can.h:17-31 | writing back every field read from an identifier rebuilds its 29 identifier bits |
| `CanId.ReassembleDataId` | include/thingset/can.h:33-42 | the same through the data-id field |
| `CanId.DataIdSplit` | include/thingset/can.h:37 | data-id == bus-id * 256 + target, read from the same identifier |
| `CanId.DataIdSetSplit` | include/thingset/can.h:77-91 | setting a data-id sets its high byte as bus-id and its low byte as target |
| `CanId.DataIdExample` | include/thingset/can.h:80-81 | data-id 0x1234 is 0x00123400, with 0x12 in the bus-id byte and 0x34 in the target byte |
| `CanId.PriorityConstantCodes` | include/thingset/can.h:112-118 | the priority constants are the priority field holding codes 0, 2, 3, 4, 5, 6, 7 |
| `CanId.TypeConstants` | include/thingset/can.h:99-104 | the type constants lie in the type field and are pairwise distinct |
| `CanId.AddressConstants` | include/thingset/can.h:73-75 | ADDR_MAX < ADDR_ANONYMOUS < ADDR_BROADCAST == 0xFF |
| `CanId.LowerPriorityWins` | include/thingset/can.h:22-24 | for 29-bit identifiers, a lower priority code is a numerically lower identifier, which wins CAN arbitration |
| `CanFrame.Pack` | include/thingset/can.h:17-56 | a packed frame fits the 29 identifier bits |
| `CanFrame.Unpack` | include/thingset/can.h:98-104 | unpacking fails exactly when the type bits are 0x1, which no layout uses |
| `CanFrame.UnpackPack` | include/thingset/can.h:17-56 | unpacking a packed frame of any layout gives the frame back |
| `CanFrame.UnpackPackChannel` | include/thingset/can.h:20-31 | UnpackPack for the channel layout |
| `CanFrame.UnpackPackSingle` | include/thingset/can.h:33-42 | UnpackPack for the single-frame control/report layout |
| `CanFrame.UnpackPackNetwork` | include/thingset/can.h:44-55 | UnpackPack for the network-management layout, whose variable byte goes through the random-nonce accessors |
| `CanFrame.PackUnpack` | include/thingset/can.h:17-56 | repacking an unpacked identifier gives it back iff bits 29-31 are clear |
| `CanFrame.RepackChannel` | include/thingset/can.h:20-31 | repacking a channel identifier gives its 29 identifier bits |
| `CanFrame.RepackSingle` | include/thingset/can.h:33-42 | repacking a type-0x2 (control or report) identifier gives its 29 identifier bits |
| `CanFrame.RepackNetwork` | include/thingset/can.h:44-55 | repacking a network-management identifier gives its 29 identifier bits |
| `CanFrame.PackInjective` | include/thingset/can.h:17-56 | distinct frames get distinct identifiers |
| `CanFrame.PackOnto` | include/thingset/can.h:17-56 | every 29-bit identifier with type bits 0x0, 0x2 or 0x3 is the packing of some frame |
| `CanFrame.PackInRange` | include/thingset/can.h:17-56 | every packed frame fits 29 bits and has type bits other than 0x1, so with PackOnto the range of Pack is exactly those identifiers |
| `CanFrame.ChannelIsIsoTpFixedAddressing` | include/thingset/can.h:27-31 | with priority 6 and the default bus-id, a channel identifier is 0x18DA0000 + target * 256 + source, the ISO 15765-2 normal fixed addressing, physical |
| `CanFrame.ChannelExample` | include/thingset/can.h:20-31 | channel frame (6, 0xDA, 0x05, 0x02) is 0x18DA0502, and back |
| `CanFrame.ReportExample` | include/thingset/can.h:33-42 | report frame (7, 0x1234, 0x03) is 0x1E123403, with data-id bytes 0x12 and 0x34 |
| `CanClassify.IsChannel` | include/thingset/can.h:125 | THINGSET_CAN_CHANNEL: holds iff the type bits are 0, i.e. iff the identifier unpacks to a channel frame |
| `CanClassify.IsReport` | include/thingset/can.h:123-124 | THINGSET_CAN_REPORT: holds iff the identifier unpacks to a single-frame (type 0x2) frame with priority code 4 or more |
| `CanClassify.IsControl` | include/thingset/can.h:121-122 | THINGSET_CAN_CONTROL with its undefined type constant as a parameter: for every choice of that constant no control identifier is a report; with the report type bits it holds iff the identifier unpacks to a single frame with priority code 0-3 |
| `CanClassify.ChannelReportExclusive` | include/thingset/can.h:123-125 | no identifier is both a channel message and a report |
| `CanClassify.NetworkIsNeither` | include/thingset/can.h:104 | a network-management identifier (type 0x3) is neither a channel message nor a report |
| `CanClassify.ControlSharesReportLayout` | include/thingset/can.h:33-42 | with control using the report type bits, as the diagram draws it, control and report together are exactly the type-0x2 identifiers, split at priority 4 |
| `CanClassify.Partition` | include/thingset/can.h:98-125 | every identifier is exactly one of channel, report, control (control read with the report type bits), network management or unused type 0x1 |
| `CanClassify.PackedFrameClass` | include/thingset/can.h:120-125 | a packed frame is a channel message iff it is a channel frame, and a report iff it is a single frame with priority 4 or more |
| `CanClassify.ReportPriorities` | include/thingset/can.h:40-42 | single frames with priority 5 or 7 are reports; priority 0 is not a report, and priority 3 is control (control read with the report type bits) |

## Left out

- `THINGSET_CAN_CONTROL` (lines 121-122) compares against `THINGSET_CAN_TYPE_CONTROL`, which the header never defines. `CanClassify.IsControl` therefore takes that constant as a parameter, and the lemmas state what holds for every choice and for the report type bits that the diagram draws.
- Macro arguments are taken as values already converted to `uint32_t`. Two C behaviours are therefore not modelled:
  - the implicit conversion of a negative or wider argument;
  - the expansion of a compound argument such as `a | b`. Because the macro parameter is not parenthesised, the cast applies to `a` alone, and the shift (in a GET, the mask) to `b` alone; `THINGSET_CAN_TARGET_SET(a | b)` expands to `((uint32_t)a | (b << 8)) & 0xFF00`, and `THINGSET_CAN_TARGET_GET(a | b)` to `((uint32_t)a | (b & 0xFF00)) >> 8`.
- Identifiers are stated only as 32-bit words. No lemma links them to their value as unbounded integers, apart from the remainder facts for small masks, used by the truncation lemmas and `PrioSetInField`.
- The C types of the numeric constants are not modelled. The masks and the shifted constants are `int`, and the positions (`0U` to `26U`) are `unsigned int`. All of them are non-negative and below 2^31, so reading them as `uint32_t` changes nothing. The model writes the positions as literal shift amounts.
- The context structure `struct thingset_can` (lines 130-142) and the prototypes for sending, receiving and processing (lines 155-192) are not part of this model. Their implementations are outside the header.
- Address claiming, the report scheduler and the message dispatcher are not part of this model, nor is the rest of the CAN transport.
