/**
 * The message-type predicates over a received identifier: channel messages
 * (ISO-TP request/response), report messages, and control messages.
 *
 * The control predicate compares the type bits with a type constant that the
 * header never defines, so here that constant is a parameter; the layout
 * diagram draws control and report messages with the same type bits 0x2, and
 * the lemmas below state what follows for that choice and for every choice.
 */
module CanClassify {
  import opened CanId
  import opened CanFrame

  /**
   * A report: type bits 0x2 and a priority code of at least 4, which are
   * exactly the identifiers of the single-frame layout with such a priority.
   */
  predicate IsReport(id: bv32)
    ensures IsReport(id) <==> Unpack(id).Some? && Unpack(id).value.Single? && Unpack(id).value.prio >= 4
  {
    id & TYPE_MASK == TYPE_REPORT && PrioGet(id) >= 4
  }

  /**
   * A channel message: type bits 0x0, whatever the priority, which are
   * exactly the identifiers of the channel layout.
   */
  predicate IsChannel(id: bv32)
    ensures IsChannel(id) <==> Unpack(id).Some? && Unpack(id).value.Channel?
  {
    id & TYPE_MASK == TYPE_CHANNEL
  }

  /**
   * A control message: type bits `typeControl` and a priority code below 4.
   * Whatever the type constant, no control message is a report; with the
   * report type bits these are the single-frame identifiers with priority
   * code 0-3.
   */
  predicate IsControl(id: bv32, typeControl: bv32)
    ensures IsControl(id, typeControl) ==> !IsReport(id)
    ensures typeControl == TYPE_REPORT ==>
      (IsControl(id, typeControl) <==> Unpack(id).Some? && Unpack(id).value.Single? && Unpack(id).value.prio < 4)
  {
    id & TYPE_MASK == typeControl && PrioGet(id) < 4
  }

  /** No identifier is both a channel message and a report. */
  lemma ChannelReportExclusive(id: bv32)
    ensures !(IsChannel(id) && IsReport(id))
  {}

  /** A network-management identifier is neither a channel message nor a report. */
  lemma NetworkIsNeither(id: bv32)
    requires id & TYPE_MASK == TYPE_NETWORK
    ensures !IsChannel(id) && !IsReport(id)
  {}

  /**
   * With the control type taken as the report type bits, as the layout
   * diagram draws it, control and report messages split the report layout
   * by priority: codes 0-3 are control, codes 4-7 are report.
   */
  lemma ControlSharesReportLayout(id: bv32)
    ensures IsControl(id, TYPE_REPORT) || IsReport(id) <==> id & TYPE_MASK == TYPE_REPORT
    ensures IsControl(id, TYPE_REPORT) <==> id & TYPE_MASK == TYPE_REPORT && PrioGet(id) < 4
  {}

  /**
   * Every identifier falls in exactly one class: channel, report, control
   * (with the report type bits), network management, or the unused type 0x1.
   */
  lemma Partition(id: bv32)
    ensures (if IsChannel(id) then 1 else 0)
          + (if IsReport(id) then 1 else 0)
          + (if IsControl(id, TYPE_REPORT) then 1 else 0)
          + (if id & TYPE_MASK == TYPE_NETWORK then 1 else 0)
          + (if Unpack(id).None? then 1 else 0) == 1
  {}

  /**
   * A packed frame is classified by its layout: every channel frame is a
   * channel message, a report-layout frame is a report exactly when its
   * priority code is 4 or more, and no network frame is either.
   */
  lemma PackedFrameClass(f: Frame)
    ensures IsChannel(Pack(f)) <==> f.Channel?
    ensures IsReport(Pack(f)) <==> f.Single? && f.prio >= 4
  {
    UnpackPack(f);
  }

  /** The priority constants classify report frames as the comments of the header say. */
  lemma ReportPriorities(dataId: DataId, source: Byte)
    ensures IsReport(Pack(Single(5, dataId, source)))
    ensures IsReport(Pack(Single(7, dataId, source)))
    ensures !IsReport(Pack(Single(0, dataId, source)))
    ensures IsControl(Pack(Single(3, dataId, source)), TYPE_REPORT)
  {
    PackedFrameClass(Single(5, dataId, source));
    PackedFrameClass(Single(7, dataId, source));
    PackedFrameClass(Single(0, dataId, source));
    UnpackPack(Single(3, dataId, source));
  }
}
