/** The input-event sink both decoders report to, seen as the ordered trace of
    calls the decoder makes: input_report_key, input_report_abs, input_event
    with MSC_SERIAL, and input_sync.  The input core's own filtering of
    repeated key states happens after this point and is not modelled. */
module InputEvents {

  // Key and axis codes, as the Linux input subsystem numbers them.
  const BTN_TOOL_PEN: nat := 0x140
  const BTN_TOOL_RUBBER: nat := 0x141
  const BTN_TOUCH: nat := 0x14a
  const BTN_STYLUS: nat := 0x14b
  const BTN_STYLUS2: nat := 0x14c

  const ABS_X: nat := 0x00
  const ABS_Y: nat := 0x01
  const ABS_PRESSURE: nat := 0x18
  const ABS_MISC: nat := 0x28

  /** One call into the input sink. */
  datatype Event =
    | Key(code: nat, value: int)      // input_report_key(dev, code, value)
    | Abs(axis: nat, value: int)      // input_report_abs(dev, axis, value)
    | MscSerial(serial: int)          // input_event(dev, EV_MSC, MSC_SERIAL, serial)
    | Sync                            // input_sync(dev)

  /** The three events every pen packet ends with: the tool id on ABS_MISC,
      the product id as serial, and the end-of-batch marker. */
  function Trailer(toolId: nat, serial: nat): seq<Event>
  {
    [Abs(ABS_MISC, toolId), MscSerial(serial), Sync]
  }

  /** Number of occurrences of `e` in `trace`. */
  function Count(trace: seq<Event>, e: Event): nat
  {
    if trace == [] then 0
    else (if trace[0] == e then 1 else 0) + Count(trace[1..], e)
  }

  lemma {:induction false} CountAppend(a: seq<Event>, b: seq<Event>, e: Event)
    ensures Count(a + b, e) == Count(a, e) + Count(b, e)
  {
    if a != [] {
      assert (a + b)[1..] == a[1..] + b;
      CountAppend(a[1..], b, e);
    } else {
      assert a + b == b;
    }
  }

  lemma {:induction false} CountAbsent(trace: seq<Event>, e: Event)
    requires e !in trace
    ensures Count(trace, e) == 0
  {
    if trace != [] {
      assert trace[0] != e;
      CountAbsent(trace[1..], e);
    }
  }

  /** Occurrences of an event that is absent before and after `mid`. */
  lemma CountOnlyIn(pre: seq<Event>, mid: seq<Event>, post: seq<Event>, e: Event)
    requires e !in pre && e !in post
    ensures Count(pre + mid + post, e) == Count(mid, e)
  {
    CountAppend(pre + mid, post, e);
    CountAppend(pre, mid, e);
    CountAbsent(pre, e);
    CountAbsent(post, e);
  }

  /** No key event at all appears in `trace`. */
  predicate NoKeys(trace: seq<Event>)
  {
    forall i :: 0 <= i < |trace| ==> !trace[i].Key?
  }

  /** No X, Y or PRESSURE axis update appears in `trace`. */
  predicate NoAxes(trace: seq<Event>)
  {
    forall i :: 0 <= i < |trace| ==>
      !(trace[i].Abs? && trace[i].axis in {ABS_X, ABS_Y, ABS_PRESSURE})
  }
}
