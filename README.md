# Bosto 2nd-generation tablet report decoders, in Dafny

This project models the two report decoders of the Bosto/Hanwang pen-tablet
drivers and proves properties of them:

- **hid-bosto-2g.c**, the HID driver. Its `bosto_2g_raw_event` takes one raw
  report and classifies it by bytes 0 and 1. It then updates the
  per-device latches (`current_id`, `current_tool`, `tool_update`,
  `stylus_btn_bosto_2g`, `stylus_prox`) and the persistent coordinates
  `x`, `y`, `p`, clamps those coordinates to the device profile, and sends
  one ordered batch of input events. Its `get_features` looks up the
  profile in a one-row table.
- **bosto_2g.c**, the older raw-USB driver. Its `hanwang_parse_packet` does
  the same job with only `current_id` and `current_tool`, no clamping and no
  latches. Its `get_features` searches a four-row table.

The input device is modelled as the ordered trace of calls each decoder
makes (`InputEvents.Event`): `Key(code, value)` for `input_report_key`,
`Abs(axis, value)` for `input_report_abs`, `MscSerial(v)` for the
`MSC_SERIAL` event and `Sync` for `input_sync`. Key and axis codes are the
Linux input numbers.

Each decoder has two parts:

- **A pure specification, `Step`.** It gives the new session and the emitted
  batch for one report.
  - HID module, `HidBosto2g.Step` (hid-bosto-2g.c:106-240), built from:
    - `Classify` (hid-bosto-2g.c:115-117 and 126-221): the packet kind;
    - `Track` (hid-bosto-2g.c:126-222), with `ToolIdentity` (hid-bosto-2g.c:148-177),
      `Proximity` (hid-bosto-2g.c:180-207) and `ButtonEdge` (hid-bosto-2g.c:195-206):
      the session changes and the key events;
    - `Clamp` (hid-bosto-2g.c:224-226);
    - the emitted axes and trailer (hid-bosto-2g.c:228-237).
  - USB module, `UrbBosto2g.Step` (bosto_2g.c:154-297), built from:
    - `ToolIdentity` (bosto_2g.c:163-196);
    - `CoordinateReport` (bosto_2g.c:204-236);
    - the trailer (bosto_2g.c:238-241).
- **A class with the C structure's fields.** `HidBosto2g.Bosto2g` and
  `UrbBosto2g.Hanwang` hold those fields plus `events`, the trace so far.
  The decoding method (`RawEvent`, `ParsePacket`) follows the C code,
  including the `pkt_type` computation and the `0x20`→`0x30` switch
  fallthrough. Its contract ties the new fields and the appended events to
  `Step`.

The properties are lemmas about `Step`: the tool-identity invariant,
clamping bounds, the batch trailer, each packet kind's effect and the
side-button edge count over a run of reports. `PressureVariants` compares
the two drivers' pressure formulas.

Behaviour of the code that is easy to miss, each proved as a lemma:

- In the HID driver, `tool_update` is raised in only two cases: a tool-out
  while in proximity, or a permitted identity change. A tool-out while out of
  proximity, a repeated tool claim or an unknown tool nibble therefore
  re-sends the stale, clamped `x`/`y`/`p`. See `ToolOutOutOfProximity`,
  `StylusClaim` and `UnknownToolUpdate`.
- In the HID driver, the eraser can be claimed straight from the stylus
  (hid-bosto-2g.c:164); the guard only refuses a repeat of the tool
  already held. See `EraserClaim`.
- The USB driver never clamps coordinates (`CoordinatesNotClamped`).
- On a freshly probed USB-driver device, a tool-out releases key code 0
  (`FreshToolOutReleasesCodeZero`).
- The HID id table lists product 0x9018, but the HID profile table has no
  row for it, so probing 0x9018 fails with `-ENXIO` (`Bosto14WARejected`).
- The two drivers compute pressure differently (`FormulasAgree`).

Files:

| file | contents |
|---|---|
| `wrappers.dfy` | `Option` and `Result` |
| `bits.dfy` | `u16`, big-endian 16-bit reads, nibble and bit tests |
| `input_events.dfy` | event codes, the `Event` trace, occurrence counting |
| `hid_bosto_2g.dfy` | module `HidBosto2g`: the HID decoder |
| `bosto_2g.dfy` | module `UrbBosto2g`: the USB decoder |
| `pressure_variants.dfy` | the two pressure formulas compared |

## Model

| member | source | states |
|---|---|---|
| Bits.BE16 | hid-bosto-2g.c:182-183 | `(hi << 8) \| lo` on a u16 is the big-endian value `hi * 256 + lo` |
| Bits.BE16Split | bosto_2g.c:206-207 | the high byte and the low byte are recovered from a BE16 value (round trip) |
| HidBosto2g.FirstMatch | hid-bosto-2g.c:251-258 | the result is the first row from `from` on with the wanted product id; None means no row has it |
| HidBosto2g.ProbeFeatures | hid-bosto-2g.c:277-281 | probe gets a table row with the wanted product id, or fails with -ENXIO exactly when no row matches |
| HidBosto2g.Bosto14WARejected | hid-bosto-2g.c:323-325 | 0x9018 is in the driver's id table, yet probing it fails with -ENXIO |
| HidBosto2g.Bosto22HDAccepted | hid-bosto-2g.c:83-86 | probing 0x9016 yields the Kingtee 22HD profile |
| HidBosto2g.Pressure | hid-bosto-2g.c:187 | touch pressure is at most 2047; its top eight bits are byte 6, its next two the top two bits of byte 7, and its lowest bit is bit 5 of byte 7 or bit 0 of byte 1 |
| HidBosto2g.ClampTo | hid-bosto-2g.c:224-226 | the clamped value is at most the maximum and at most the input, and equals one of them |
| HidBosto2g.Bosto2g.constructor | hid-bosto-2g.c:270 | a new device has no profile, an empty trace, tool_update 0 and the all-zero session: the session fields as devm_kzalloc (line 270) leaves them, and x, y, p at the zero the statics (lines 112-114) start from when the module loads |
| HidBosto2g.Bosto2g.GetFeatures | hid-bosto-2g.c:242-259 | the loop returns true exactly when a row matches, stores the first matching row, and leaves the profile alone otherwise |
| HidBosto2g.Bosto2g.RawEvent | hid-bosto-2g.c:106-240 | the new fields are Step's next session, the appended events are Step's batch, tool_update is 0 on return, the identity invariant still holds and the stored x/y/p are clamped |
| HidBosto2g.Bosto2g.DecodePacket | hid-bosto-2g.c:115-222 | the pkt_type classification and the byte-0 dispatch change the session and append keys exactly as Track decides, and set tool_update exactly when Track raises it |
| HidBosto2g.Bosto2g.ClampToProfile | hid-bosto-2g.c:224-226 | the in-place clamps give Clamp of the old session |
| HidBosto2g.Bosto2g.ReportBatch | hid-bosto-2g.c:228-237 | appends X, Y, PRESSURE only when tool_update was 0, then MISC, SERIAL and SYNC, and clears tool_update |
| HidBosto2g.Bosto2g.ToolOutPacket | hid-bosto-2g.c:131-145 | case 1 of the pen switch agrees with Track |
| HidBosto2g.Bosto2g.ToolUpdatePacket | hid-bosto-2g.c:148-177 | case 2 of the pen switch agrees with Track |
| HidBosto2g.Bosto2g.ProximityPacket | hid-bosto-2g.c:180-207 | case 3 of the pen switch agrees with Track and never raises tool_update |
| HidBosto2g.StepPreservesIds | hid-bosto-2g.c:131-207 | current_id stays in {0, 0x02, 0x0A} and current_tool stays in {0, TOOL_PEN, TOOL_RUBBER}, and current_id is 0 whenever stylus_prox is false, after every report |
| HidBosto2g.StepBounds | hid-bosto-2g.c:224-233 | after every report x, y, p are within the profile maxima, and so is every X, Y, PRESSURE value the report emits |
| HidBosto2g.StepTrailer | hid-bosto-2g.c:228-237 | every batch ends with ABS_MISC = current_id, MSC_SERIAL = product id, SYNC; X, Y, PRESSURE stand just before it when tool_update was not raised, and no axis is emitted when it was |
| HidBosto2g.TrackShape | hid-bosto-2g.c:131-177 | tool_update is raised if and only if the report is a tool-out in proximity or a permitted stylus or eraser claim; the decoder's own events before the trailer are all key events |
| HidBosto2g.OtherPacketIsNoOp | hid-bosto-2g.c:115-222 | a report that is none of the three pen packets changes nothing and emits only the stored axes and the trailer, with no key event |
| HidBosto2g.ToolOutInProximity | hid-bosto-2g.c:131-145 | a tool-out in proximity releases STYLUS, TOUCH, TOOL_PEN, TOOL_RUBBER in that order, emits no axes, and clears the id, the tool, the button latch and proximity |
| HidBosto2g.ToolOutOutOfProximity | hid-bosto-2g.c:131-145 | a tool-out out of proximity only clears the button latch, emits no key, and re-emits the stored axes |
| HidBosto2g.ToolOutTwice | hid-bosto-2g.c:131-145 | the second of two tool-outs in a row emits no key event and changes nothing |
| HidBosto2g.StylusClaim | hid-bosto-2g.c:150-160 | nibble 0x20 leaves current_id = STYLUS and stylus_prox set; it emits one TOOL_PEN press and no axes unless the stylus was already held, and a repeat emits no key and re-emits the axes |
| HidBosto2g.EraserClaim | hid-bosto-2g.c:162-171 | nibble 0xA0 does the same for ERASER and TOOL_RUBBER, and also from the stylus |
| HidBosto2g.UnknownToolUpdate | hid-bosto-2g.c:173-176 | any other nibble zeroes current_id, keeps current_tool, sets stylus_prox, emits no key and re-emits the axes |
| HidBosto2g.ProximityDecode | hid-bosto-2g.c:180-193 | a proximity report stores x = (b2<<8)\|b3 and y = (b4<<8)\|b5 clamped; a touch report emits a TOUCH press first and stores the clamped pressure, a float report emits a TOUCH release and p = 0; the batch ends with the axes and the trailer |
| HidBosto2g.SideButtonEdge | hid-bosto-2g.c:195-206 | a STYLUS press is emitted exactly when bit 1 of b1 is set and the latch was clear, a release exactly when the bit is clear and the latch was set, and the latch then equals the bit |
| HidBosto2g.ButtonEdgeCount | hid-bosto-2g.c:195-206 | the edge detector itself emits one press on a rising edge, one release on a falling edge, and nothing otherwise |
| HidBosto2g.HeldButtonPressesOnce | hid-bosto-2g.c:195-206 | N >= 1 proximity reports with the button held give exactly one STYLUS press (none if already latched) and no release |
| UrbBosto2g.FirstMatch | bosto_2g.c:353-361 | the result is the first row from `from` on with the wanted pid; None means no row has it |
| UrbBosto2g.MatchIsUnique | bosto_2g.c:116-125 | the four pids are distinct, so a matching row is the only one |
| UrbBosto2g.ProbeFeatures | bosto_2g.c:382-385 | probe gets a table row with the wanted pid, or fails with -ENXIO exactly when no row matches |
| UrbBosto2g.Pressure | bosto_2g.c:209-223 | BOSTO_2GEN pressure is at most 2047, has byte 6 as its top eight bits, the top two bits of byte 7 next, and bit 0 of byte 1 as its lowest; every other tablet type gives 0 |
| UrbBosto2g.Hanwang.constructor | bosto_2g.c:375 | a new device has no profile, an empty trace and the all-zero session |
| UrbBosto2g.Hanwang.GetFeatures | bosto_2g.c:349-362 | the loop returns true exactly when a row matches, stores the first matching row, and leaves the profile alone otherwise |
| UrbBosto2g.Hanwang.ParsePacket | bosto_2g.c:146-298 | the nested switches, fallthroughs included, leave the fields as Step's next session and append exactly Step's batch |
| UrbBosto2g.StepPreservesIds | bosto_2g.c:154-196 | current_id stays in {0, 0x02, 0x0A} and current_tool in {0, TOOL_PEN, TOOL_RUBBER} |
| UrbBosto2g.NonPenPacket | bosto_2g.c:284-297 | a packet whose byte 0 is not 0x02 emits only SYNC and changes nothing |
| UrbBosto2g.PenPacketTrailer | bosto_2g.c:238-241 | every pen packet's batch ends with ABS_MISC = current_id, MSC_SERIAL = pid, SYNC |
| UrbBosto2g.ToolOut | bosto_2g.c:157-161 | 0x80 zeroes current_id, keeps current_tool, and releases the stored tool code |
| UrbBosto2g.FreshToolOutReleasesCodeZero | bosto_2g.c:157-161 | on a fresh device the released key code is 0 |
| UrbBosto2g.ToolUpdate | bosto_2g.c:163-196 | nibble 0x20 or 0x30 selects (STYLUS, TOOL_PEN) with a press, 0xA0 selects (ERASER, TOOL_RUBBER) with a press, and any other nibble zeroes current_id with no key; there is no repeat guard |
| UrbBosto2g.PenInThenOut | bosto_2g.c:157-178 | a stylus claimed by 0xC2 is released as TOOL_PEN by the next 0x80 |
| UrbBosto2g.CoordinatePacket | bosto_2g.c:198-236 | any other byte 1, including 0xE0 to 0xE3, emits X = (b2<<8)\|b3, Y = (b4<<8)\|b5, PRESSURE, STYLUS = b1 & 0x02, STYLUS2 = b1 & 0x04 and the trailer, and changes no state |
| UrbBosto2g.CoordinatesNotClamped | bosto_2g.c:204-229 | a 22HD packet can report X = 0xffff although the profile's max_x is 0x27de |
| PressureVariants.FormulasAgree | bosto_2g.c:211-213 | the two drivers' 22HD pressures are equal if and only if bit 5 of byte 7 is clear or bit 0 of byte 1 is set |
| PressureVariants.HidNeverBelowUrb | hid-bosto-2g.c:187 | where they differ, the HID pressure is the USB pressure plus one |
| PressureVariants.SameUpperBits | hid-bosto-2g.c:187 | the two pressures agree above bit 0; the HID lowest bit is bit 0 of byte 1 or bit 5 of byte 7, the USB one is bit 0 of byte 1 alone |

## Left out

- USB and HID plumbing is not modelled: `hanwang_irq`, `hanwang_open`, `hanwang_close`, `hanwang_probe` beyond its `get_features` step, `hanwang_disconnect`, `bosto_2g_probe` beyond its `get_features` step, `hid_parse`, `hid_hw_start`, URB and DMA allocation, and capability and axis-range setup. These are kernel API calls with no decoding logic.
- detach_usbhid.c is not part of this model. It is a libusb command-line tool and is pure foreign I/O.
- `printk` and `dev_dbg` diagnostics are left out. That includes the USB driver's prints of `x`/`y`/`p`, which can be uninitialised on paths that never set them.
- Reading the product id from the USB device descriptor becomes a parameter of `GetFeatures`. The `devm_kzalloc`/`kzalloc` failure path (-ENOMEM) is left out.
- `le16_to_cpup` and `le16_to_cpu` are taken as the identity, as on a little-endian host.
- The input core's handling of reported values is left out: the `!!` normalisation of key values and the filtering of repeated key states. The trace holds the raw arguments of each call. For example, the USB driver's STYLUS value is `b1 & 0x02`, which is 0 or 2.
- Reports shorter than 10 bytes are excluded by `requires |data| >= 10`.
  - USB driver: the interrupt buffer is always `pkg_len` = 10 bytes (bosto_2g.c:387, 443).
  - HID driver: `bosto_2g_raw_event` never checks its `size` argument (hid-bosto-2g.c:107), and `PKGLEN_MAX` (hid-bosto-2g.c:40) is never used. The decoding reads bytes 0 to 7, so the code assumes a report of at least 8 bytes. If the `dev_dbg` at hid-bosto-2g.c:119-120 is enabled, it reads up to byte 9, so it then needs 10 bytes. The model does not cover what the C code does with a shorter report, which reads past the end of the buffer.
- `RawEvent` returns nothing. The C function always returns 0.
- Commented-out code is not modelled: the 0x0c pad and wheel handling, the Art Master HD pressure formula, the tilt axes and the 0xB0 eraser case in bosto_2g.c.
- HidBosto2g.Bosto2g.RawEvent: `x`, `y`, `p` are function-static in the C code (hid-bosto-2g.c:112-114). They are zeroed once, when the module loads, and `devm_kzalloc` (hid-bosto-2g.c:270) does not reset them. They are shared by every HID device the driver serves at the same time. They also carry over when a tablet is unplugged and the same or another tablet is probed again. Its first batches before a proximity packet then re-send the last clamped values, for example for a tool-out while out of proximity, a 0x0c packet or a repeated claim. The model keeps them as fields of a single decoder that lives as long as the module. So the constructor's zero `x`/`y`/`p` matches only the first probe after the module loads, and neither the carry-over after a re-probe nor the sharing between devices is modelled.
- HidBosto2g.Bosto2g.RawEvent: requires `Valid()`, meaning tool_update is 0 and the tool-identity invariant holds. The constructor establishes this and every call keeps it, as the method's own ensures and `StepPreservesIds` show. It is not a demand the C code makes of its callers.
