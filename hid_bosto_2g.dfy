/** The report decoder of the HID driver (hid-bosto-2g.c): one raw report
    in (at least 10 bytes here; the driver never checks its size), updated
    session latches and one ordered batch of input events out.

    Step is written as a pure pipeline (Classify, Track, Clamp, then
    the emitted batch); the class Bosto2g holds the C
    driver's fields and its RawEvent method follows bosto_2g_raw_event
    statement by statement, and is proved to agree with Step. */
module HidBosto2g {
  import opened Wrappers
  import opened Bits
  import opened InputEvents

  const STYLUS_DEVICE_ID: nat := 0x02
  const ERASER_DEVICE_ID: nat := 0x0A

  const USB_PRODUCT_BOSTO22HD: nat := 0x9016
  const USB_PRODUCT_BOSTO14WA: nat := 0x9018

  /** The errno probe returns when no device profile matches. */
  const ENXIO: int := 6

  // ---------------------------------------------------------------------
  // Device descriptor registry

  datatype TabletType = Bosto22HD | Bosto14WA | ArtMasterIII | ArtMasterHD

  datatype Features = Features(
    productId: nat,
    name: string,
    tabletType: TabletType,
    maxX: nat,
    maxY: nat,
    maxPressure: nat,
    resX: nat,
    resY: nat)

  const FeaturesArray: seq<Features> := [
    Features(USB_PRODUCT_BOSTO22HD, "Bosto Kingtee 22HD", Bosto22HD,
             0xdbe8, 0x7bb3, 2048, 55, 55)
  ]

  /** The product ids the driver registers for with the HID core. */
  const DeviceIds: seq<nat> := [USB_PRODUCT_BOSTO22HD, USB_PRODUCT_BOSTO14WA]

  /** The index of the first row of `table`, from `from` on, whose product id
      is `productId`; None when no such row exists. */
  function FirstMatch(table: seq<Features>, productId: nat, from: nat): (r: Option<nat>)
    requires from <= |table|
    ensures r.Some? ==> from <= r.value < |table| && table[r.value].productId == productId
    ensures r.Some? ==> forall j :: from <= j < r.value ==> table[j].productId != productId
    ensures r.None? ==> forall j :: from <= j < |table| ==> table[j].productId != productId
    decreases |table| - from
  {
    if from == |table| then None
    else if table[from].productId == productId then Some(from)
    else FirstMatch(table, productId, from + 1)
  }

  /** The get_features step of probe: the matching profile, or -ENXIO. */
  function ProbeFeatures(productId: nat): (r: Result<Features, int>)
    ensures r.Success? ==> r.value in FeaturesArray && r.value.productId == productId
    ensures r.Failure? ==> r.error == -ENXIO
    ensures r.Failure? <==> forall j :: 0 <= j < |FeaturesArray| ==> FeaturesArray[j].productId != productId
  {
    match FirstMatch(FeaturesArray, productId, 0)
    case Some(i) => Success(FeaturesArray[i])
    case None => Failure(-ENXIO)
  }

  /** The 14WA is in the HID id table, but has no profile: probe fails. */
  lemma Bosto14WARejected()
    ensures USB_PRODUCT_BOSTO14WA in DeviceIds
    ensures ProbeFeatures(USB_PRODUCT_BOSTO14WA) == Failure(-ENXIO)
  {
  }

  lemma Bosto22HDAccepted()
    ensures ProbeFeatures(USB_PRODUCT_BOSTO22HD) == Success(FeaturesArray[0])
  {
  }

  // ---------------------------------------------------------------------
  // Session state

  /** The per-device latches and the three persistent coordinates.  The
      flag tool_update is not part of it: it is zero between reports. */
  datatype Session = Session(
    currentTool: nat,
    currentId: nat,
    stylusBtn: bool,
    stylusProx: bool,
    x: u16,
    y: u16,
    p: u16)

  /** The zero-filled session of a freshly probed device. */
  const InitialSession: Session := Session(0, 0, false, false, 0, 0, 0)

  /** Tool identity invariant: a known id and tool code, and no tool id
      while the stylus is out of proximity. */
  predicate ValidIds(s: Session)
  {
    && s.currentId in {0, STYLUS_DEVICE_ID, ERASER_DEVICE_ID}
    && s.currentTool in {0, BTN_TOOL_PEN, BTN_TOOL_RUBBER}
    && (!s.stylusProx ==> s.currentId == 0)
  }

  /** The stored coordinates lie within the profile's maxima. */
  predicate Clamped(s: Session, f: Features)
  {
    s.x <= f.maxX && s.y <= f.maxY && s.p <= f.maxPressure
  }

  // ---------------------------------------------------------------------
  // Packet classifier

  datatype PacketClass =
    | ToolOut | ToolUpdate | ProximityFloat | ProximityTouch | TabletButton | Unrecognized

  /** Byte 0 selects the family, byte 1 the pen packet kind. */
  function Classify(data: seq<bv8>): PacketClass
    requires |data| >= 2
  {
    if data[0] == 0x02 then
      if data[1] == 0x80 then ToolOut
      else if data[1] == 0xC2 then ToolUpdate
      else if HighNibble(data[1]) == 0xA0 then ProximityFloat
      else if HighNibble(data[1]) == 0xE0 then ProximityTouch
      else Unrecognized
    else if data[0] == 0x0c then TabletButton
    else Unrecognized
  }

  /** The 2048-level pressure of a touch packet,
      `(b7 >> 5) | (b6 << 3) | (b1 & 1)`: byte 6 gives the top eight bits,
      the top three bits of byte 7 the low three, and bit 0 of byte 1 is
      or-ed into the lowest. */
  function Pressure(b1: bv8, b6: bv8, b7: bv8): (p: u16)
    ensures p <= 2047
    ensures p / 8 == b6 as int
    ensures p % 8 / 2 == b7 as int / 64
    ensures p % 2 == 1 <==> (b1 & 1 == 1 || b7 & 0x20 == 0x20)
  {
    (((b7 >> 5) as bv16) | ((b6 as bv16) << 3) | ((b1 & 1) as bv16)) as int
  }

  // ---------------------------------------------------------------------
  // Tool state tracker

  /** What one report does to the session before clamping: the new session,
      the key events in the order derived, and whether tool_update was set. */
  datatype Decision = Decision(next: Session, keys: seq<Event>, toolUpdate: bool)

  const ToolOutReleases: seq<Event> :=
    [Key(BTN_STYLUS, 0), Key(BTN_TOUCH, 0), Key(BTN_TOOL_PEN, 0), Key(BTN_TOOL_RUBBER, 0)]

  function Track(s: Session, data: seq<bv8>): Decision
    requires |data| >= 10
  {
    match Classify(data)
    case ToolOut =>
      if s.stylusProx then
        Decision(Session(0, 0, false, false, s.x, s.y, s.p), ToolOutReleases, true)
      else
        Decision(s.(stylusBtn := false), [], false)
    case ToolUpdate => ToolIdentity(s.(stylusProx := true), HighNibble(data[3]))
    case ProximityFloat => Proximity(s, data, false)
    case ProximityTouch => Proximity(s, data, true)
    case TabletButton => Decision(s, [], false)
    case Unrecognized => Decision(s, [], false)
  }

  /** A tool-update packet: a guarded claim of the stylus or the eraser id.
      The guard only refuses a repeat of the tool already held. */
  function ToolIdentity(s: Session, tool: bv8): Decision
  {
    if tool == 0x20 then
      if s.currentId == ERASER_DEVICE_ID || s.currentId == 0 then
        Decision(s.(currentId := STYLUS_DEVICE_ID, currentTool := BTN_TOOL_PEN),
                 [Key(BTN_TOOL_PEN, 1)], true)
      else Decision(s, [], false)
    else if tool == 0xA0 then
      if s.currentId == STYLUS_DEVICE_ID || s.currentId == 0 then
        Decision(s.(currentId := ERASER_DEVICE_ID, currentTool := BTN_TOOL_RUBBER),
                 [Key(BTN_TOOL_RUBBER, 1)], true)
      else Decision(s, [], false)
    else Decision(s.(currentId := 0), [], false)
  }

  /** A proximity packet: position, pressure, touch, and the side-button edge. */
  function Proximity(s: Session, data: seq<bv8>, touch: bool): Decision
    requires |data| >= 10
  {
    var pressed := Bit(data[1], 1);
    Decision(
      s.(stylusProx := true,
         x := BE16(data[2], data[3]),
         y := BE16(data[4], data[5]),
         p := if touch then Pressure(data[1], data[6], data[7]) else 0,
         stylusBtn := pressed),
      [Key(BTN_TOUCH, if touch then 1 else 0)] + ButtonEdge(s.stylusBtn, pressed),
      false)
  }

  /** The side-button key event for the latched and the reported state. */
  function ButtonEdge(latched: bool, pressed: bool): seq<Event>
  {
    if pressed && !latched then [Key(BTN_STYLUS, 1)]
    else if !pressed && latched then [Key(BTN_STYLUS, 0)]
    else []
  }

  // ---------------------------------------------------------------------
  // Clamping and the emitted batch

  /** `v` truncated to `max`. */
  function ClampTo(v: u16, max: nat): (r: u16)
    ensures r <= max && r <= v
    ensures r == v || r == max
  {
    if v > max then max else v
  }

  function Clamp(s: Session, f: Features): (c: Session)
  {
    s.(x := ClampTo(s.x, f.maxX), y := ClampTo(s.y, f.maxY), p := ClampTo(s.p, f.maxPressure))
  }

  function AxisReport(s: Session): seq<Event>
  {
    [Abs(ABS_X, s.x), Abs(ABS_Y, s.y), Abs(ABS_PRESSURE, s.p)]
  }

  /** The session after one report and the batch the report emits. */
  datatype Outcome = Outcome(next: Session, batch: seq<Event>)

  function Step(s: Session, f: Features, data: seq<bv8>): Outcome
    requires |data| >= 10
  {
    var d := Track(s, data);
    var c := Clamp(d.next, f);
    Outcome(c, d.keys + (if d.toolUpdate then [] else AxisReport(c)) + Trailer(c.currentId, f.productId))
  }

  /** Reports fed one after another. */
  function Run(s: Session, f: Features, reports: seq<seq<bv8>>): Outcome
    requires forall i :: 0 <= i < |reports| ==> |reports[i]| >= 10
    decreases |reports|
  {
    if reports == [] then Outcome(s, [])
    else
      var first := Step(s, f, reports[0]);
      var rest := Run(first.next, f, reports[1..]);
      Outcome(rest.next, first.batch + rest.batch)
  }

  // ---------------------------------------------------------------------
  // The driver object

  class Bosto2g {
    var features: Option<Features>
    var currentTool: nat
    var currentId: nat
    var toolUpdate: nat
    var stylusBtn: bool
    var stylusProx: bool
    // Function-static in bosto_2g_raw_event; kept here for the one decoder.
    var x: u16
    var y: u16
    var p: u16
    /** Everything reported to the input device so far. */
    var events: seq<Event>

    /** The zero-filled state devm_kzalloc gives a probed device. */
    constructor ()
      ensures features == None && toolUpdate == 0 && events == []
      ensures State() == InitialSession
    {
      features := None;
      currentTool, currentId, toolUpdate := 0, 0, 0;
      stylusBtn, stylusProx := false, false;
      x, y, p := 0, 0, 0;
      events := [];
    }

    ghost function State(): Session
      reads this
    {
      Session(currentTool, currentId, stylusBtn, stylusProx, x, y, p)
    }

    ghost predicate Valid()
      reads this
    {
      toolUpdate == 0 && ValidIds(State())
    }

    /** Looks up the device's profile by product id and stores it. */
    method GetFeatures(productId: nat) returns (found: bool)
      modifies this`features
      ensures found == FirstMatch(FeaturesArray, productId, 0).Some?
      ensures found ==> features == Some(FeaturesArray[FirstMatch(FeaturesArray, productId, 0).value])
      ensures !found ==> features == old(features)
    {
      var i := 0;
      while i < |FeaturesArray|
        invariant 0 <= i <= |FeaturesArray|
        invariant FirstMatch(FeaturesArray, productId, 0) == FirstMatch(FeaturesArray, productId, i)
      {
        if FeaturesArray[i].productId == productId {
          features := Some(FeaturesArray[i]);
          return true;
        }
        i := i + 1;
      }
      return false;
    }

    /** Decodes one raw report into the session and the input device. */
    method RawEvent(data: seq<bv8>)
      requires |data| >= 10
      requires features.Some?
      requires Valid()
      modifies this
      ensures features == old(features)
      ensures Valid() && Clamped(State(), features.value)
      ensures State() == Step(old(State()), features.value, data).next
      ensures events == old(events) + Step(old(State()), features.value, data).batch
    {
      ghost var s0, e0 := State(), events;
      var f := features.value;
      DecodePacket(data);
      ghost var d := Track(s0, data);
      ClampToProfile(f);
      ReportBatch(f);
      ghost var axes := if d.toolUpdate then [] else AxisReport(Clamp(d.next, f));
      assert events == e0 + d.keys + axes + Trailer(currentId, f.productId);
      StepPreservesIds(s0, f, data);
    }

    /** The classification and the pen-packet switch of bosto_2g_raw_event. */
    method DecodePacket(data: seq<bv8>)
      requires |data| >= 10
      requires toolUpdate == 0
      modifies this`currentTool, this`currentId, this`toolUpdate, this`stylusBtn,
               this`stylusProx, this`x, this`y, this`p, this`events
      ensures var d := Track(old(State()), data);
        && State() == d.next && events == old(events) + d.keys
        && toolUpdate == (if d.toolUpdate then 1 else 0)
    {
      var pktType := 0;
      if data[1] == 0x80 { pktType := 1; }
      if data[1] == 0xC2 { pktType := 2; }
      if HighNibble(data[1]) == 0xA0 || HighNibble(data[1]) == 0xE0 { pktType := 3; }

      if data[0] == 0x02 {
        if pktType == 1 {
          ToolOutPacket(data);
        } else if pktType == 2 {
          ToolUpdatePacket(data);
        } else if pktType == 3 {
          ProximityPacket(data);
        }
      } else if data[0] == 0x0c {
        // tablet button packet: nothing decoded
      }
    }

    /** Clamps the persistent coordinates to the profile's maxima in place. */
    method ClampToProfile(f: Features)
      modifies this`x, this`y, this`p
      ensures State() == Clamp(old(State()), f)
    {
      // The maxima fit in u16 whenever they are assigned, since they are
      // then below the u16 value they replace.
      if x > f.maxX { x := f.maxX; }
      if y > f.maxY { y := f.maxY; }
      if p > f.maxPressure { p := f.maxPressure; }
    }

    /** The end of every report: the axes unless tool_update is set, then
        the tool id, the serial and the sync; tool_update is cleared. */
    method ReportBatch(f: Features)
      modifies this`events, this`toolUpdate
      ensures toolUpdate == 0
      ensures events == old(events) + (if old(toolUpdate) == 0 then AxisReport(State()) else [])
                        + Trailer(currentId, f.productId)
    {
      if toolUpdate == 0 {
        events := events + [Abs(ABS_X, x)];
        events := events + [Abs(ABS_Y, y)];
        events := events + [Abs(ABS_PRESSURE, p)];
      }
      events := events + [Abs(ABS_MISC, currentId)];
      events := events + [MscSerial(f.productId)];
      events := events + [Sync];
      toolUpdate := 0;
    }

    /** Case 1 of the pen-packet switch: tool proximity out. */
    method ToolOutPacket(data: seq<bv8>)
      requires |data| >= 10 && data[0] == 0x02 && data[1] == 0x80
      requires toolUpdate == 0
      modifies this`currentTool, this`currentId, this`toolUpdate, this`stylusBtn,
               this`stylusProx, this`x, this`y, this`p, this`events
      ensures var d := Track(old(State()), data);
        State() == d.next && events == old(events) + d.keys && toolUpdate == (if d.toolUpdate then 1 else 0)
    {
      stylusBtn := false;
      if stylusProx {
        events := events + [Key(BTN_STYLUS, 0)];
        events := events + [Key(BTN_TOUCH, 0)];
        events := events + [Key(BTN_TOOL_PEN, 0)];
        events := events + [Key(BTN_TOOL_RUBBER, 0)];
        currentId := 0;
        currentTool := 0;
        toolUpdate := 1;
        stylusProx := false;
      }
    }

    /** Case 2 of the pen-packet switch: tool status update. */
    method ToolUpdatePacket(data: seq<bv8>)
      requires |data| >= 10 && data[0] == 0x02 && data[1] == 0xC2
      requires toolUpdate == 0
      modifies this`currentTool, this`currentId, this`toolUpdate, this`stylusBtn,
               this`stylusProx, this`x, this`y, this`p, this`events
      ensures var d := Track(old(State()), data);
        State() == d.next && events == old(events) + d.keys && toolUpdate == (if d.toolUpdate then 1 else 0)
    {
      stylusProx := true;
      var tool := HighNibble(data[3]);
      if tool == 0x20 {
        if currentId == ERASER_DEVICE_ID || currentId == 0 {
          currentId := STYLUS_DEVICE_ID;
          currentTool := BTN_TOOL_PEN;
          toolUpdate := 1;
          events := events + [Key(BTN_TOOL_PEN, 1)];
        }
      } else if tool == 0xA0 {
        if currentId == STYLUS_DEVICE_ID || currentId == 0 {
          currentId := ERASER_DEVICE_ID;
          currentTool := BTN_TOOL_RUBBER;
          toolUpdate := 1;
          events := events + [Key(BTN_TOOL_RUBBER, 1)];
        }
      } else {
        currentId := 0;
      }
    }

    /** Case 3 of the pen-packet switch: stylus in proximity, floating or touching. */
    method ProximityPacket(data: seq<bv8>)
      requires |data| >= 10 && data[0] == 0x02
      requires HighNibble(data[1]) == 0xA0 || HighNibble(data[1]) == 0xE0
      requires toolUpdate == 0
      modifies this`currentTool, this`currentId, this`toolUpdate, this`stylusBtn,
               this`stylusProx, this`x, this`y, this`p, this`events
      ensures var d := Track(old(State()), data);
        State() == d.next && events == old(events) + d.keys && toolUpdate == 0 && !d.toolUpdate
    {
      stylusProx := true;
      x := BE16(data[2], data[3]);
      y := BE16(data[4], data[5]);
      if HighNibble(data[1]) == 0xE0 {
        events := events + [Key(BTN_TOUCH, 1)];
        p := Pressure(data[1], data[6], data[7]);
      } else {
        p := 0;
        events := events + [Key(BTN_TOUCH, 0)];
      }
      if Bit(data[1], 1) {
        if !stylusBtn {
          events := events + [Key(BTN_STYLUS, 1)];
          stylusBtn := true;
        }
      } else if stylusBtn {
        events := events + [Key(BTN_STYLUS, 0)];
        stylusBtn := false;
      }
    }
  }

  // ---------------------------------------------------------------------
  // Properties

  /** The tool identity invariant holds after every report. */
  lemma StepPreservesIds(s: Session, f: Features, data: seq<bv8>)
    requires |data| >= 10
    requires ValidIds(s)
    ensures ValidIds(Step(s, f, data).next)
  {
  }

  /** Every emitted X, Y and PRESSURE value lies within the profile. */
  predicate AxesWithin(batch: seq<Event>, f: Features)
  {
    forall i :: 0 <= i < |batch| && batch[i].Abs? ==>
      && (batch[i].axis == ABS_X ==> batch[i].value <= f.maxX)
      && (batch[i].axis == ABS_Y ==> batch[i].value <= f.maxY)
      && (batch[i].axis == ABS_PRESSURE ==> batch[i].value <= f.maxPressure)
  }

  /** After every report the stored coordinates are clamped, and so is
      every coordinate the report emits. */
  lemma StepBounds(s: Session, f: Features, data: seq<bv8>)
    requires |data| >= 10
    ensures Clamped(Step(s, f, data).next, f)
    ensures AxesWithin(Step(s, f, data).batch, f)
  {
    var d := Track(s, data);
    var out := Step(s, f, data);
    var axes := if d.toolUpdate then [] else AxisReport(out.next);
    assert out.batch == d.keys + axes + Trailer(out.next.currentId, f.productId);
    assert forall i :: 0 <= i < |d.keys| ==> d.keys[i].Key?;
  }

  /** The packets for which tool_update is raised: a tool-out while in
      proximity, or a permitted change of tool identity. */
  predicate RaisesToolUpdate(s: Session, data: seq<bv8>)
    requires |data| >= 4
  {
    && data[0] == 0x02
    && (|| (data[1] == 0x80 && s.stylusProx)
        || (data[1] == 0xC2 && HighNibble(data[3]) == 0x20
            && s.currentId in {0, ERASER_DEVICE_ID})
        || (data[1] == 0xC2 && HighNibble(data[3]) == 0xA0
            && s.currentId in {0, STYLUS_DEVICE_ID}))
  }

  /** Every batch ends with ABS_MISC = current_id, MSC_SERIAL = product id
      and SYNC; the X, Y, PRESSURE triple stands right before that trailer
      exactly when tool_update was not raised, and is absent otherwise. */
  lemma StepTrailer(s: Session, f: Features, data: seq<bv8>)
    requires |data| >= 10
    ensures var out := Step(s, f, data);
      && |out.batch| >= 3
      && out.batch[|out.batch| - 3..] == Trailer(out.next.currentId, f.productId)
    ensures var out := Step(s, f, data);
      !RaisesToolUpdate(s, data) ==>
        |out.batch| >= 6 && out.batch[|out.batch| - 6..|out.batch| - 3] == AxisReport(out.next)
    ensures RaisesToolUpdate(s, data) ==> NoAxes(Step(s, f, data).batch)
  {
    var d := Track(s, data);
    var out := Step(s, f, data);
    var axes := if d.toolUpdate then [] else AxisReport(out.next);
    var trailer := Trailer(out.next.currentId, f.productId);
    assert out.batch == d.keys + axes + trailer;
    TrackShape(s, data);
    assert out.batch[|out.batch| - 3..] == trailer;
    if !d.toolUpdate {
      assert out.batch == (d.keys + axes) + trailer;
      assert out.batch[|out.batch| - 6..|out.batch| - 3] == axes;
    }
  }

  /** tool_update is raised exactly by RaisesToolUpdate, and the tracker
      derives key events only. */
  lemma TrackShape(s: Session, data: seq<bv8>)
    requires |data| >= 10
    ensures Track(s, data).toolUpdate <==> RaisesToolUpdate(s, data)
    ensures forall i :: 0 <= i < |Track(s, data).keys| ==> Track(s, data).keys[i].Key?
  {
  }

  /** A report that is not one of the three pen packets (any byte 1 other
      than 0x80, 0xC2, 0xA_, 0xE_, or any byte 0 other than 0x02) leaves the
      session as it was and emits no key event: only the stored axes and the
      trailer. */
  lemma OtherPacketIsNoOp(s: Session, f: Features, data: seq<bv8>)
    requires |data| >= 10
    requires Clamped(s, f)
    requires data[0] != 0x02
             || !(data[1] == 0x80 || data[1] == 0xC2
                  || HighNibble(data[1]) == 0xA0 || HighNibble(data[1]) == 0xE0)
    ensures Step(s, f, data).next == s
    ensures Step(s, f, data).batch == AxisReport(s) + Trailer(s.currentId, f.productId)
    ensures NoKeys(Step(s, f, data).batch)
  {
  }

  /** Tool out while in proximity: releases of STYLUS, TOUCH, TOOL_PEN and
      TOOL_RUBBER in that order, no axes, and the tool identity and both
      latches cleared. */
  lemma ToolOutInProximity(s: Session, f: Features, data: seq<bv8>)
    requires |data| >= 10 && data[0] == 0x02 && data[1] == 0x80
    requires Clamped(s, f) && s.stylusProx
    ensures Step(s, f, data).next == s.(currentId := 0, currentTool := 0,
                                        stylusBtn := false, stylusProx := false)
    ensures Step(s, f, data).batch
            == [Key(BTN_STYLUS, 0), Key(BTN_TOUCH, 0), Key(BTN_TOOL_PEN, 0), Key(BTN_TOOL_RUBBER, 0)]
               + Trailer(0, f.productId)
  {
  }

  /** Tool out while already out of proximity: no key event, only the button
      latch is cleared, and the stale axes are reported again. */
  lemma ToolOutOutOfProximity(s: Session, f: Features, data: seq<bv8>)
    requires |data| >= 10 && data[0] == 0x02 && data[1] == 0x80
    requires Clamped(s, f) && !s.stylusProx
    ensures Step(s, f, data).next == s.(stylusBtn := false)
    ensures Step(s, f, data).batch == AxisReport(s) + Trailer(s.currentId, f.productId)
    ensures NoKeys(Step(s, f, data).batch)
  {
  }

  /** Of two tool-out packets in a row, the second emits no key event and
      changes nothing. */
  lemma ToolOutTwice(s: Session, f: Features, first: seq<bv8>, second: seq<bv8>)
    requires |first| >= 10 && first[0] == 0x02 && first[1] == 0x80
    requires |second| >= 10 && second[0] == 0x02 && second[1] == 0x80
    ensures var mid := Step(s, f, first).next;
      && NoKeys(Step(mid, f, second).batch)
      && Step(mid, f, second).next == mid
  {
    StepBounds(s, f, first);
  }

  /** Tool update with tool nibble 0x20: the stylus id is claimed, with one
      TOOL_PEN press, unless the stylus is already held; a repeat emits no key
      and re-reports the stored axes. */
  lemma StylusClaim(s: Session, f: Features, data: seq<bv8>)
    requires |data| >= 10 && data[0] == 0x02 && data[1] == 0xC2 && HighNibble(data[3]) == 0x20
    requires Clamped(s, f) && ValidIds(s)
    ensures Step(s, f, data).next.currentId == STYLUS_DEVICE_ID
    ensures Step(s, f, data).next.stylusProx
    ensures s.currentId != STYLUS_DEVICE_ID ==>
      && Step(s, f, data).next == s.(currentId := STYLUS_DEVICE_ID, currentTool := BTN_TOOL_PEN, stylusProx := true)
      && Step(s, f, data).batch == [Key(BTN_TOOL_PEN, 1)] + Trailer(STYLUS_DEVICE_ID, f.productId)
    ensures s.currentId == STYLUS_DEVICE_ID ==>
      && Step(s, f, data).next == s.(stylusProx := true)
      && Step(s, f, data).batch == AxisReport(s) + Trailer(STYLUS_DEVICE_ID, f.productId)
  {
  }

  /** Tool update with tool nibble 0xA0: the eraser id is claimed, with one
      TOOL_RUBBER press, from no tool and also straight from the stylus; a
      repeat emits no key. */
  lemma EraserClaim(s: Session, f: Features, data: seq<bv8>)
    requires |data| >= 10 && data[0] == 0x02 && data[1] == 0xC2 && HighNibble(data[3]) == 0xA0
    requires Clamped(s, f) && ValidIds(s)
    ensures Step(s, f, data).next.currentId == ERASER_DEVICE_ID
    ensures Step(s, f, data).next.stylusProx
    ensures s.currentId != ERASER_DEVICE_ID ==>
      && Step(s, f, data).next == s.(currentId := ERASER_DEVICE_ID, currentTool := BTN_TOOL_RUBBER, stylusProx := true)
      && Step(s, f, data).batch == [Key(BTN_TOOL_RUBBER, 1)] + Trailer(ERASER_DEVICE_ID, f.productId)
    ensures s.currentId == ERASER_DEVICE_ID ==>
      && Step(s, f, data).next == s.(stylusProx := true)
      && Step(s, f, data).batch == AxisReport(s) + Trailer(ERASER_DEVICE_ID, f.productId)
  {
  }

  /** Tool update with any other tool nibble: the tool id is dropped, the
      tool code is kept, and no key event is emitted. */
  lemma UnknownToolUpdate(s: Session, f: Features, data: seq<bv8>)
    requires |data| >= 10 && data[0] == 0x02 && data[1] == 0xC2
    requires HighNibble(data[3]) != 0x20 && HighNibble(data[3]) != 0xA0
    requires Clamped(s, f)
    ensures Step(s, f, data).next == s.(currentId := 0, stylusProx := true)
    ensures Step(s, f, data).batch == AxisReport(s) + Trailer(0, f.productId)
  {
  }

  /** A proximity packet decodes X and Y big-endian from bytes 2-5; a touch
      packet reports a TOUCH press and the 11-bit pressure, a float packet a
      TOUCH release and zero pressure; all clamped to the profile. */
  lemma ProximityDecode(s: Session, f: Features, data: seq<bv8>)
    requires |data| >= 10 && data[0] == 0x02
    requires HighNibble(data[1]) == 0xA0 || HighNibble(data[1]) == 0xE0
    ensures var out := Step(s, f, data);
      && out.next.stylusProx
      && out.next.currentId == s.currentId && out.next.currentTool == s.currentTool
      && out.next.x == ClampTo(BE16(data[2], data[3]), f.maxX)
      && out.next.y == ClampTo(BE16(data[4], data[5]), f.maxY)
      && |out.batch| >= 7
      && out.batch[|out.batch| - 6..] == AxisReport(out.next) + Trailer(s.currentId, f.productId)
    ensures HighNibble(data[1]) == 0xE0 ==>
      && Step(s, f, data).batch[0] == Key(BTN_TOUCH, 1)
      && Step(s, f, data).next.p == ClampTo(Pressure(data[1], data[6], data[7]), f.maxPressure)
    ensures HighNibble(data[1]) == 0xA0 ==>
      && Step(s, f, data).batch[0] == Key(BTN_TOUCH, 0)
      && Step(s, f, data).next.p == 0
  {
    var touch := HighNibble(data[1]) == 0xE0;
    assert Classify(data) == if touch then ProximityTouch else ProximityFloat;
    var d := Proximity(s, data, touch);
    assert Track(s, data) == d;
    var out := Step(s, f, data);
    var tail := AxisReport(out.next) + Trailer(s.currentId, f.productId);
    assert out.batch == d.keys + tail;
    assert |d.keys| >= 1 && d.keys[0] == Key(BTN_TOUCH, if touch then 1 else 0);
    assert out.batch[|out.batch| - 6..] == tail;
  }

  /** The side button is edge-triggered: a proximity packet emits a STYLUS
      press only when bit 1 of byte 1 is set and the latch is clear, a
      release only when the bit is clear and the latch is set, and leaves
      the latch equal to the bit. */
  lemma SideButtonEdge(s: Session, f: Features, data: seq<bv8>)
    requires |data| >= 10 && data[0] == 0x02
    requires HighNibble(data[1]) == 0xA0 || HighNibble(data[1]) == 0xE0
    ensures Step(s, f, data).next.stylusBtn == Bit(data[1], 1)
    ensures Count(Step(s, f, data).batch, Key(BTN_STYLUS, 1))
            == if Bit(data[1], 1) && !s.stylusBtn then 1 else 0
    ensures Count(Step(s, f, data).batch, Key(BTN_STYLUS, 0))
            == if !Bit(data[1], 1) && s.stylusBtn then 1 else 0
  {
    var touch := HighNibble(data[1]) == 0xE0;
    assert Classify(data) == if touch then ProximityTouch else ProximityFloat;
    var d := Proximity(s, data, touch);
    assert Track(s, data) == d;
    var out := Step(s, f, data);
    var edge := ButtonEdge(s.stylusBtn, Bit(data[1], 1));
    var tail := AxisReport(out.next) + Trailer(s.currentId, f.productId);
    assert out.batch == [d.keys[0]] + edge + tail;
    CountOnlyIn([d.keys[0]], edge, tail, Key(BTN_STYLUS, 1));
    CountOnlyIn([d.keys[0]], edge, tail, Key(BTN_STYLUS, 0));
    ButtonEdgeCount(s.stylusBtn, Bit(data[1], 1));
  }

  /** The edge detector emits one press on a rising edge, one release on a
      falling edge, and nothing otherwise. */
  lemma ButtonEdgeCount(latched: bool, pressed: bool)
    ensures Count(ButtonEdge(latched, pressed), Key(BTN_STYLUS, 1)) == if pressed && !latched then 1 else 0
    ensures Count(ButtonEdge(latched, pressed), Key(BTN_STYLUS, 0)) == if !pressed && latched then 1 else 0
  {
    var edge := ButtonEdge(latched, pressed);
    if edge != [] {
      assert edge[1..] == [];
    }
  }

  /** A proximity packet with the side button held. */
  predicate HeldProximity(data: seq<bv8>)
    requires |data| >= 10
  {
    && data[0] == 0x02
    && (HighNibble(data[1]) == 0xA0 || HighNibble(data[1]) == 0xE0)
    && Bit(data[1], 1)
  }

  /** A side button held across N proximity packets (N >= 1) gives exactly one
      STYLUS press (none if it was already latched) and no release. */
  lemma {:induction false} HeldButtonPressesOnce(s: Session, f: Features, reports: seq<seq<bv8>>)
    requires forall i :: 0 <= i < |reports| ==> |reports[i]| >= 10 && HeldProximity(reports[i])
    ensures reports != [] ==> Run(s, f, reports).next.stylusBtn
    ensures Count(Run(s, f, reports).batch, Key(BTN_STYLUS, 1))
            == if reports == [] || s.stylusBtn then 0 else 1
    ensures Count(Run(s, f, reports).batch, Key(BTN_STYLUS, 0)) == 0
    decreases |reports|
  {
    if reports != [] {
      var first := Step(s, f, reports[0]);
      var rest := Run(first.next, f, reports[1..]);
      SideButtonEdge(s, f, reports[0]);
      HeldButtonPressesOnce(first.next, f, reports[1..]);
      CountAppend(first.batch, rest.batch, Key(BTN_STYLUS, 1));
      CountAppend(first.batch, rest.batch, Key(BTN_STYLUS, 0));
      if reports[1..] != [] {
        assert rest.next == Run(s, f, reports).next;
      }
    }
  }
}
