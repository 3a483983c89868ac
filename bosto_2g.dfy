/** The report decoder of the older USB driver (bosto_2g.c): one 10-byte
    interrupt packet in, the tool identity updated and one ordered batch of
    input events out.  There is no clamping, no proximity latch and no
    side-button latch in this version.

    Step gives the meaning of one packet; the class Hanwang holds the C
    driver's fields and its ParsePacket method follows hanwang_parse_packet,
    fallthrough included, and is proved to agree with Step. */
module UrbBosto2g {
  import opened Wrappers
  import opened Bits
  import opened InputEvents

  const STYLUS_DEVICE_ID: nat := 0x02
  const ERASER_DEVICE_ID: nat := 0x0A

  const ART_MASTER_PKGLEN_MAX: nat := 10

  /** The errno probe returns when no device profile matches. */
  const ENXIO: int := 6

  // ---------------------------------------------------------------------
  // Device descriptor registry

  datatype TabletType = Bosto2Gen | ArtMasterIII | ArtMasterHD

  datatype Features = Features(
    pid: nat,
    name: string,
    tabletType: TabletType,
    pkgLen: nat,
    maxX: nat,
    maxY: nat,
    maxTiltX: nat,
    maxTiltY: nat,
    maxPressure: nat)

  const FeaturesArray: seq<Features> := [
    Features(0x9016, "Bosto Kingtee 22HD", Bosto2Gen,
             ART_MASTER_PKGLEN_MAX, 0x27de, 0x1cfe, 0x3f, 0x7f, 2048),
    Features(0x9017, "Bosto Kingtee 14WA", ArtMasterIII,
             ART_MASTER_PKGLEN_MAX, 0x3d84, 0x2672, 0x3f, 0x7f, 2048),
    Features(0x852a, "Hanwang Art Master III 1308", ArtMasterIII,
             ART_MASTER_PKGLEN_MAX, 0x7f00, 0x4f60, 0x3f, 0x7f, 2048),
    Features(0x8401, "Hanwang Art Master HD 5012", ArtMasterHD,
             ART_MASTER_PKGLEN_MAX, 0x678e, 0x4150, 0x3f, 0x7f, 1024)
  ]

  /** The index of the first row of `table`, from `from` on, whose pid is
      `pid`; None when no such row exists. */
  function FirstMatch(table: seq<Features>, pid: nat, from: nat): (r: Option<nat>)
    requires from <= |table|
    ensures r.Some? ==> from <= r.value < |table| && table[r.value].pid == pid
    ensures r.Some? ==> forall j :: from <= j < r.value ==> table[j].pid != pid
    ensures r.None? ==> forall j :: from <= j < |table| ==> table[j].pid != pid
    decreases |table| - from
  {
    if from == |table| then None
    else if table[from].pid == pid then Some(from)
    else FirstMatch(table, pid, from + 1)
  }

  /** The four pids of the table are distinct, so a match is the only one. */
  lemma MatchIsUnique(pid: nat)
    ensures FirstMatch(FeaturesArray, pid, 0).Some? ==>
      forall j :: 0 <= j < |FeaturesArray| && FeaturesArray[j].pid == pid ==>
        j == FirstMatch(FeaturesArray, pid, 0).value
  {
    assert forall i, j :: 0 <= i < j < |FeaturesArray| ==> FeaturesArray[i].pid != FeaturesArray[j].pid;
  }

  /** The get_features step of probe: the matching profile, or -ENXIO. */
  function ProbeFeatures(pid: nat): (r: Result<Features, int>)
    ensures r.Success? ==> r.value in FeaturesArray && r.value.pid == pid
    ensures r.Failure? ==> r.error == -ENXIO
    ensures r.Failure? <==> forall j :: 0 <= j < |FeaturesArray| ==> FeaturesArray[j].pid != pid
  {
    match FirstMatch(FeaturesArray, pid, 0)
    case Some(i) => Success(FeaturesArray[i])
    case None => Failure(-ENXIO)
  }

  // ---------------------------------------------------------------------
  // Session state and the meaning of one packet

  datatype Session = Session(currentTool: nat, currentId: nat)

  /** The zero-filled session of a freshly probed device. */
  const InitialSession: Session := Session(0, 0)

  predicate ValidIds(s: Session)
  {
    && s.currentId in {0, STYLUS_DEVICE_ID, ERASER_DEVICE_ID}
    && s.currentTool in {0, BTN_TOOL_PEN, BTN_TOOL_RUBBER}
  }

  /** The pressure of a coordinate packet.  For the BOSTO_2GEN type it is
      `(b6 << 3) | ((b7 & 0xC0) >> 5) | (b1 & 1)`: byte 6 gives the top eight
      bits, the top two bits of byte 7 the next two, and bit 0 of byte 1 the
      lowest; every other tablet type reports zero. */
  function Pressure(t: TabletType, b1: bv8, b6: bv8, b7: bv8): (p: u16)
    ensures t != Bosto2Gen ==> p == 0
    ensures t == Bosto2Gen ==>
      && p <= 2047
      && p / 8 == b6 as int
      && p % 8 / 2 == b7 as int / 64
      && (p % 2 == 1 <==> b1 & 1 == 1)
  {
    match t
    case Bosto2Gen =>
      (((b6 as bv16) << 3) | (((b7 & 0xC0) >> 5) as bv16) | ((b1 & 0x01) as bv16)) as int
    case _ => 0
  }

  /** The session after one packet and the batch the packet emits. */
  datatype Outcome = Outcome(next: Session, batch: seq<Event>)

  /** A 0xC2 packet: the tool nibble of byte 3 names the tool. */
  function ToolIdentity(s: Session, tool: bv8): Outcome
  {
    if tool == 0x20 || tool == 0x30 then
      Outcome(Session(BTN_TOOL_PEN, STYLUS_DEVICE_ID), [Key(BTN_TOOL_PEN, 1)])
    else if tool == 0xA0 then
      Outcome(Session(BTN_TOOL_RUBBER, ERASER_DEVICE_ID), [Key(BTN_TOOL_RUBBER, 1)])
    else
      Outcome(s.(currentId := 0), [])
  }

  /** Any other pen packet: position, pressure and both stylus buttons, as
      decoded, with no clamping. */
  function CoordinateReport(f: Features, data: seq<bv8>): seq<Event>
    requires |data| >= 10
  {
    [ Abs(ABS_X, BE16(data[2], data[3])),
      Abs(ABS_Y, BE16(data[4], data[5])),
      Abs(ABS_PRESSURE, Pressure(f.tabletType, data[1], data[6], data[7])),
      Key(BTN_STYLUS, (data[1] & 0x02) as int),
      Key(BTN_STYLUS2, (data[1] & 0x04) as int) ]
  }

  function Step(s: Session, f: Features, data: seq<bv8>): Outcome
    requires |data| >= 10
  {
    if data[0] != 0x02 then Outcome(s, [Sync])
    else
      var body :=
        if data[1] == 0x80 then Outcome(s.(currentId := 0), [Key(s.currentTool, 0)])
        else if data[1] == 0xC2 then ToolIdentity(s, HighNibble(data[3]))
        else Outcome(s, CoordinateReport(f, data));
      Outcome(body.next, body.batch + Trailer(body.next.currentId, f.pid))
  }

  // ---------------------------------------------------------------------
  // The driver object

  class Hanwang {
    var features: Option<Features>
    var currentTool: nat
    var currentId: nat
    /** Everything reported to the input device so far. */
    var events: seq<Event>

    /** The zero-filled state kzalloc gives a probed device. */
    constructor ()
      ensures features == None && events == [] && State() == InitialSession
    {
      features := None;
      currentTool, currentId := 0, 0;
      events := [];
    }

    ghost function State(): Session
      reads this
    {
      Session(currentTool, currentId)
    }

    /** Looks up the device's profile by pid and stores it. */
    method GetFeatures(pid: nat) returns (found: bool)
      modifies this`features
      ensures found == FirstMatch(FeaturesArray, pid, 0).Some?
      ensures found ==> features == Some(FeaturesArray[FirstMatch(FeaturesArray, pid, 0).value])
      ensures !found ==> features == old(features)
    {
      for i := 0 to |FeaturesArray|
        invariant FirstMatch(FeaturesArray, pid, 0) == FirstMatch(FeaturesArray, pid, i)
      {
        if FeaturesArray[i].pid == pid {
          features := Some(FeaturesArray[i]);
          return true;
        }
      }
      return false;
    }

    /** Decodes the packet in the URB buffer into the session and the input
        device. */
    method ParsePacket(data: seq<bv8>)
      requires |data| >= 10
      requires features.Some?
      modifies this`currentTool, this`currentId, this`events
      ensures State() == Step(old(State()), features.value, data).next
      ensures events == old(events) + Step(old(State()), features.value, data).batch
    {
      var f := features.value;
      if data[0] == 0x02 {
        if data[1] == 0x80 {
          // tool proximity out
          currentId := 0;
          events := events + [Key(currentTool, 0)];
        } else if data[1] == 0xC2 {
          // first time tool proximity in
          var tool := HighNibble(data[3]);
          if tool == 0x20 {
            currentId := STYLUS_DEVICE_ID;
            currentTool := BTN_TOOL_PEN;
            // no break: falls through into the 0x30 case
          }
          if tool == 0x20 || tool == 0x30 {
            currentId := STYLUS_DEVICE_ID;
            currentTool := BTN_TOOL_PEN;
            events := events + [Key(BTN_TOOL_PEN, 1)];
          } else if tool == 0xA0 {
            currentId := ERASER_DEVICE_ID;
            currentTool := BTN_TOOL_RUBBER;
            events := events + [Key(BTN_TOOL_RUBBER, 1)];
          } else {
            currentId := 0;
          }
        } else {
          // 0xE0 to 0xE3 (pen contact) fall through into the tool data case
          var x := BE16(data[2], data[3]);
          var y := BE16(data[4], data[5]);
          var p := Pressure(f.tabletType, data[1], data[6], data[7]);
          events := events + [Abs(ABS_X, x)];
          events := events + [Abs(ABS_Y, y)];
          events := events + [Abs(ABS_PRESSURE, p)];
          events := events + [Key(BTN_STYLUS, (data[1] & 0x02) as int)];
          events := events + [Key(BTN_STYLUS2, (data[1] & 0x04) as int)];
        }
        events := events + [Abs(ABS_MISC, currentId)];
        events := events + [MscSerial(f.pid)];
      }
      events := events + [Sync];
    }
  }

  // ---------------------------------------------------------------------
  // Properties

  /** The tool id and tool code stay among the known values. */
  lemma StepPreservesIds(s: Session, f: Features, data: seq<bv8>)
    requires |data| >= 10
    requires ValidIds(s)
    ensures ValidIds(Step(s, f, data).next)
  {
  }

  /** A packet whose byte 0 is not 0x02 emits only the sync and changes
      nothing. */
  lemma NonPenPacket(s: Session, f: Features, data: seq<bv8>)
    requires |data| >= 10 && data[0] != 0x02
    ensures Step(s, f, data) == Outcome(s, [Sync])
  {
  }

  /** Every pen packet's batch ends with ABS_MISC = current_id,
      MSC_SERIAL = pid and SYNC. */
  lemma PenPacketTrailer(s: Session, f: Features, data: seq<bv8>)
    requires |data| >= 10 && data[0] == 0x02
    ensures var out := Step(s, f, data);
      |out.batch| >= 3 && out.batch[|out.batch| - 3..] == Trailer(out.next.currentId, f.pid)
  {
  }

  /** 0x80: the tool id is cleared and the stored tool code is released;
      the tool code itself is left as it was. */
  lemma ToolOut(s: Session, f: Features, data: seq<bv8>)
    requires |data| >= 10 && data[0] == 0x02 && data[1] == 0x80
    ensures Step(s, f, data).next == Session(s.currentTool, 0)
    ensures Step(s, f, data).batch == [Key(s.currentTool, 0)] + Trailer(0, f.pid)
  {
  }

  /** On a freshly probed device, a tool-out releases key code 0. */
  lemma FreshToolOutReleasesCodeZero(f: Features, data: seq<bv8>)
    requires |data| >= 10 && data[0] == 0x02 && data[1] == 0x80
    ensures Step(InitialSession, f, data).batch[0] == Key(0, 0)
  {
  }

  /** 0xC2: tool nibble 0x20 or 0x30 selects the stylus with a TOOL_PEN
      press, 0xA0 the eraser with a TOOL_RUBBER press; any other nibble
      clears the tool id, keeps the tool code and emits no key event.  No
      guard: a repeat presses again. */
  lemma ToolUpdate(s: Session, f: Features, data: seq<bv8>)
    requires |data| >= 10 && data[0] == 0x02 && data[1] == 0xC2
    ensures HighNibble(data[3]) == 0x20 || HighNibble(data[3]) == 0x30 ==>
      && Step(s, f, data).next == Session(BTN_TOOL_PEN, STYLUS_DEVICE_ID)
      && Step(s, f, data).batch == [Key(BTN_TOOL_PEN, 1)] + Trailer(STYLUS_DEVICE_ID, f.pid)
    ensures HighNibble(data[3]) == 0xA0 ==>
      && Step(s, f, data).next == Session(BTN_TOOL_RUBBER, ERASER_DEVICE_ID)
      && Step(s, f, data).batch == [Key(BTN_TOOL_RUBBER, 1)] + Trailer(ERASER_DEVICE_ID, f.pid)
    ensures HighNibble(data[3]) !in {0x20, 0x30, 0xA0} ==>
      && Step(s, f, data).next == Session(s.currentTool, 0)
      && Step(s, f, data).batch == Trailer(0, f.pid)
  {
  }

  /** A stylus claimed by 0xC2 is released by the next 0x80 as TOOL_PEN. */
  lemma PenInThenOut(s: Session, f: Features, prox: seq<bv8>, out: seq<bv8>)
    requires |prox| >= 10 && prox[0] == 0x02 && prox[1] == 0xC2 && HighNibble(prox[3]) == 0x20
    requires |out| >= 10 && out[0] == 0x02 && out[1] == 0x80
    ensures var mid := Step(s, f, prox).next;
      && Step(mid, f, out).batch == [Key(BTN_TOOL_PEN, 0)] + Trailer(0, f.pid)
      && Step(mid, f, out).next == Session(BTN_TOOL_PEN, 0)
  {
    ToolUpdate(s, f, prox);
  }

  /** Any other byte 1, the pen-contact values 0xE0 to 0xE3 included: X and Y
      big-endian from bytes 2-5, the pressure, the raw STYLUS and STYLUS2
      bits of byte 1; no state change. */
  lemma CoordinatePacket(s: Session, f: Features, data: seq<bv8>)
    requires |data| >= 10 && data[0] == 0x02 && data[1] != 0x80 && data[1] != 0xC2
    ensures Step(s, f, data).next == s
    ensures var b := Step(s, f, data).batch;
      && |b| == 8
      && b[0] == Abs(ABS_X, data[2] as int * 256 + data[3] as int)
      && b[1] == Abs(ABS_Y, data[4] as int * 256 + data[5] as int)
      && b[2] == Abs(ABS_PRESSURE, Pressure(f.tabletType, data[1], data[6], data[7]))
      && b[3] == Key(BTN_STYLUS, if Bit(data[1], 1) then 2 else 0)
      && b[4] == Key(BTN_STYLUS2, if Bit(data[1], 2) then 4 else 0)
      && b[5..] == Trailer(s.currentId, f.pid)
  {
  }

  /** Coordinates are not clamped: the 22HD profile allows X up to 0x27de,
      yet a packet can report 0xffff. */
  lemma CoordinatesNotClamped(s: Session)
    ensures var data: seq<bv8> := [0x02, 0xE0, 0xFF, 0xFF, 0, 0, 0, 0, 0, 0];
      && Step(s, FeaturesArray[0], data).batch[0] == Abs(ABS_X, 0xFFFF)
      && 0xFFFF > FeaturesArray[0].maxX
  {
  }
}
