/** The source select register of the AXI multiplexer. */
module AxiMux {
  const SEL_MASK: bv32 := 0xFF
  const PORTS: bv5 := 8
  const EINVAL := -22

  // A port is a bv5: the C shift 1 << port is defined for ports 0 to 31 only.

  function Mask(port: bv5): bv32 { 1 << port }

  /** Bit `port` of a register value. */
  function Bit(sel: bv32, port: bv5): bool { (sel >> port) & 1 == 1 }

  /** The source a register value selects for a port: bit `port`, and the register has no ports
      above 7. */
  function Source(sel: bv32, port: bv5): bool { port < PORTS && Bit(sel, port) }

  predicate FitsMask(sel: bv32) { sel & !SEL_MASK == 0 }

  /** Which source each port selects. */
  type Selection = bv5 -> bool

  ghost predicate Selects(sel: bv32, m: Selection) {
    && FitsMask(sel)
    && forall port: bv5 :: port < PORTS ==> m(port) == Source(sel, port)
  }

  /** A call of aximux_set_src, with a source that is nonzero or not. */
  datatype Call = Call(port: bv5, on: bool)

  /** Clears the bits x, or sets them, and keeps the low byte. */
  function Update(sel: bv32, x: bv32, on: bool): bv32 {
    if on then ((sel & !x) | x) & SEL_MASK else (sel & !x) & SEL_MASK
  }

  /** What aximux_set_src leaves in the register. */
  function SetSrc(sel: bv32, port: bv5, on: bool): bv32 { Update(sel, Mask(port), on) }

  function SetAll(sel: bv32, calls: seq<Call>): bv32 {
    if calls == [] then sel
    else
      var last := calls[|calls| - 1];
      SetSrc(SetAll(sel, calls[..|calls| - 1]), last.port, last.on)
  }

  /** The source last asked for on a port, or what the port had. */
  function LastSource(m: Selection, calls: seq<Call>, port: bv5): bool {
    if calls == [] then m(port)
    else
      var last := calls[|calls| - 1];
      if last.port == port then last.on else LastSource(m, calls[..|calls| - 1], port)
  }

  lemma MasksDiffer(a: bv5, b: bv5)
    requires a != b
    ensures Mask(a) & Mask(b) == 0
  {
  }

  /** The mask tests the bit of its port. */
  lemma MaskIsBit(sel: bv32, port: bv5)
    ensures (sel & Mask(port) != 0) == Bit(sel, port)
  {
  }

  lemma MaskInRange(port: bv5)
    ensures Mask(port) != 0
    ensures if port < PORTS then Mask(port) & !SEL_MASK == 0 else Mask(port) & SEL_MASK == 0
  {
  }

  lemma OtherBits(sel: bv32, x: bv32, y: bv32, on: bool)
    requires x & y == 0 && y & !SEL_MASK == 0
    ensures (Update(sel, x, on) & y != 0) == (sel & y != 0)
  {
  }

  lemma SameBits(sel: bv32, x: bv32, on: bool)
    requires x != 0 && x & !SEL_MASK == 0
    ensures (Update(sel, x, on) & x != 0) == on
  {
  }

  lemma LowByteOnly(sel: bv32, x: bv32, on: bool)
    ensures Update(sel, x, on) & !SEL_MASK == 0
  {
  }

  lemma OwnBit(sel: bv32, port: bv5, on: bool)
    requires port < PORTS
    ensures Source(SetSrc(sel, port, on), port) == on
  {
    hide Mask, Update, Bit;
    MaskInRange(port);
    MaskIsBit(SetSrc(sel, port, on), port);
    SameBits(sel, Mask(port), on);
  }

  lemma OtherBit(sel: bv32, a: bv5, on: bool, port: bv5)
    requires port < PORTS && port != a
    ensures Source(SetSrc(sel, a, on), port) == Source(sel, port)
  {
    hide Mask, Update, Bit;
    MaskInRange(port);
    MaskIsBit(SetSrc(sel, a, on), port);
    MaskIsBit(sel, port);
    MasksDiffer(a, port);
    OtherBits(sel, Mask(a), Mask(port), on);
  }

  /** From a register that selects nothing a call leaves the one bit of its port. */
  lemma FirstBit(port: bv5, on: bool)
    requires port < PORTS
    ensures SetSrc(0, port, on) == if on then 1 << port else 0
  {
  }

  /** One call changes its own port and no other. */
  lemma SetSrcBit(sel: bv32, a: bv5, on: bool, port: bv5)
    requires port < PORTS
    ensures Source(SetSrc(sel, a, on), port) == if port == a then on else Source(sel, port)
  {
    hide SetSrc, Source;
    if port == a {
      OwnBit(sel, port, on);
    } else {
      OtherBit(sel, a, on, port);
    }
  }

  /** A call on a port the register does not have writes back what it read. */
  lemma HighPort(sel: bv32, port: bv5, on: bool)
    requires PORTS <= port && FitsMask(sel)
    ensures SetSrc(sel, port, on) == sel
  {
  }

  /** After any calls on ports 0 to 31 the register selects, on each of its eight ports, the
      source last asked for there, whatever the calls on other ports. */
  lemma {:induction false} RegisterIsMap(sel: bv32, m: Selection, calls: seq<Call>)
    requires Selects(sel, m)
    ensures Selects(SetAll(sel, calls), p => LastSource(m, calls, p))
  {
    if calls != [] {
      var before, last := calls[..|calls| - 1], calls[|calls| - 1];
      hide Mask, Source, Update, Bit;
      RegisterIsMap(sel, m, before);
      var prev := SetAll(sel, before);
      forall port: bv5 | port < PORTS
        ensures LastSource(m, calls, port) == Source(SetSrc(prev, last.port, last.on), port)
      {
        SetSrcBit(prev, last.port, last.on, port);
        assert (p => LastSource(m, before, p))(port) == Source(prev, port);
      }
      LowByteOnly(prev, Mask(last.port), last.on);
    }
  }

  class Device {
    var sel: bv32  // AXIMUX_REG_SEL

    constructor (sel: bv32)
      ensures this.sel == sel
    {
      this.sel := sel;
    }
  }

  /** Lines 92 to 94: the value to write for the value read. */
  method Modify(read: bv32, port: bv5, source: bv32) returns (value: bv32)
    ensures value == SetSrc(read, port, source != 0)
  {
    hide Mask;
    var cursrc := read & !Mask(port);
    if source != 0 {
      cursrc := cursrc | Mask(port);
    }
    value := cursrc & SEL_MASK;
  }

  /** aximux_set_src. */
  method AximuxSetSrc(dev: Device?, port: bv5, source: bv32)
    modifies dev
    ensures dev != null ==> dev.sel == SetSrc(old(dev.sel), port, source != 0)
  {
    hide Mask, Update;
    if dev == null {
      return;
    }
    var value := Modify(dev.sel, port, source);
    dev.sel := value;
  }

  /** Line 104: 1 or 0 for the value read; a register that fits its mask shows 0 on ports it does
      not have. */
  method Test(read: bv32, port: bv5) returns (source: int)
    ensures source == if Bit(read, port) then 1 else 0
    ensures FitsMask(read) ==> source == if Source(read, port) then 1 else 0
  {
    MaskIsBit(read, port);
    source := if read & Mask(port) != 0 then 1 else 0;
  }

  /** aximux_get_src. */
  method AximuxGetSrc(dev: Device?, port: bv5) returns (source: int)
    ensures dev == null ==> source == -1  // the destination is not written
    ensures dev != null ==> source == if Bit(dev.sel, port) then 1 else 0
    ensures dev != null && FitsMask(dev.sel) ==> source == if Source(dev.sel, port) then 1 else 0
  {
    hide Mask, Bit, FitsMask, Source;
    if dev == null {
      return -1;
    }
    source := Test(dev.sel, port);
  }

  /** src_store: values that do not fit the mask are refused. */
  method SrcStore(dev: Device, port: bv5, value: bv32, count: nat) returns (r: int)
    modifies dev
    ensures value > SEL_MASK ==> r == EINVAL && dev.sel == old(dev.sel)
    ensures value <= SEL_MASK ==> r == count && dev.sel == SetSrc(old(dev.sel), port, value != 0)
  {
    if value > SEL_MASK {
      return EINVAL;
    }
    AximuxSetSrc(dev, port, value);
    return count;
  }
}
