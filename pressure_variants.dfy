/** The two driver versions pack the 11-bit pressure differently: the HID
    driver takes the top three bits of byte 7 (`b7 >> 5`), the USB driver
    only the top two, shifted one place up (`(b7 & 0xC0) >> 5`).  Both put
    byte 6 on top and bit 0 of byte 1 at the bottom. */
module PressureVariants {
  import HidBosto2g
  import UrbBosto2g

  /** The two formulas give the same pressure exactly when bit 5 of byte 7 is
      clear or bit 0 of byte 1 is set. */
  lemma FormulasAgree(b1: bv8, b6: bv8, b7: bv8)
    ensures HidBosto2g.Pressure(b1, b6, b7) == UrbBosto2g.Pressure(UrbBosto2g.Bosto2Gen, b1, b6, b7)
            <==> (b7 & 0x20 == 0 || b1 & 1 == 1)
  {
    SameUpperBits(b1, b6, b7);
  }

  /** Where they differ, the HID value is the USB value plus one. */
  lemma HidNeverBelowUrb(b1: bv8, b6: bv8, b7: bv8)
    ensures var h := HidBosto2g.Pressure(b1, b6, b7);
            var u := UrbBosto2g.Pressure(UrbBosto2g.Bosto2Gen, b1, b6, b7);
            h == u || h == u + 1
  {
    SameUpperBits(b1, b6, b7);
  }

  /** The two values differ at most in their lowest bit. */
  lemma SameUpperBits(b1: bv8, b6: bv8, b7: bv8)
    ensures var h := HidBosto2g.Pressure(b1, b6, b7);
            var u := UrbBosto2g.Pressure(UrbBosto2g.Bosto2Gen, b1, b6, b7);
            && h - h % 2 == u - u % 2
            && (h % 2 == 1 <==> (b1 & 1 == 1 || b7 & 0x20 == 0x20))
            && (u % 2 == 1 <==> b1 & 1 == 1)
  {
    var h := HidBosto2g.Pressure(b1, b6, b7);
    var u := UrbBosto2g.Pressure(UrbBosto2g.Bosto2Gen, b1, b6, b7);
    EvenPartsAgree(h, u);
  }

  /** Two naturals with the same bits above bit 0 have the same even part. */
  lemma EvenPartsAgree(h: nat, u: nat)
    requires h / 8 == u / 8 && h % 8 / 2 == u % 8 / 2
    ensures h - h % 2 == u - u % 2
  {
    EvenPart(h);
    EvenPart(u);
  }

  /** The even part of a natural is read off its octal digits. */
  lemma EvenPart(h: nat)
    ensures h - h % 2 == h / 8 * 8 + h % 8 / 2 * 2
  {
    var q, r := h / 8, h % 8;
    assert h == 8 * q + r;
    assert 0 <= r < 8;
    if r < 2 {
      assert h == 2 * (4 * q) + r;
      assert h % 2 == r && r / 2 == 0;
    } else if r < 4 {
      assert h == 2 * (4 * q + 1) + (r - 2);
      assert h % 2 == r - 2 && r / 2 == 1;
    } else if r < 6 {
      assert h == 2 * (4 * q + 2) + (r - 4);
      assert h % 2 == r - 4 && r / 2 == 2;
    } else {
      assert h == 2 * (4 * q + 3) + (r - 6);
      assert h % 2 == r - 6 && r / 2 == 3;
    }
  }
}
