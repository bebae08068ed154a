/**
  Flag words: the tests of the models, which divide, are the mask tests of the code on the word's bits.
 */
module FlagWords {
  import opened Words
  import opened MachineWords
  import opened Adreno
  import opened A5xxStream
  import A3xxStream

  lemma LowMasks()
    ensures Shl(1, 0) == 1 && Shl(1, 1) == 2 && Shl(1, 2) == 4 && Shl(1, 3) == 8
    ensures Shl(1, 4) == 0x10 && Shl(1, 5) == 0x20 && Shl(1, 6) == 0x40 && Shl(1, 7) == 0x80
  {
  }

  lemma LowPowers()
    ensures Pow2(0) == 1 && Pow2(1) == 2 && Pow2(2) == 4 && Pow2(3) == 8
    ensures Pow2(4) == 16 && Pow2(5) == 32 && Pow2(6) == 64 && Pow2(7) == 128
  {
  }

  lemma HighMasks()
    ensures Shl(1, 17) == 0x2_0000 && Shl(1, 25) == 0x200_0000 && Shl(1, 26) == 0x400_0000 && Shl(1, 27) == 0x800_0000
    ensures Pow2(17) == 0x2_0000 && Pow2(25) == 0x200_0000 && Pow2(26) == 0x400_0000 && Pow2(27) == 0x800_0000
  {
    assert Shl(1, 8) == 0x100 && Pow2(8) == 0x100;
    assert Shl(1, 16) == 0x1_0000 && Pow2(16) == 0x1_0000;
    assert Shl(1, 24) == 0x100_0000 && Pow2(24) == 0x100_0000;
  }

  /** The submission flags F_NOTPROTECTED to F_PREAMBLE are the bits 0 to 7. */
  lemma SubmissionFlags(flags: u32)
    ensures IsNotProtected(flags) <==> Has(flags, 0x01)
    ensures IsWfi(flags) <==> Has(flags, 0x02)
    ensures A3xxStream.IsPwronFixup(flags) <==> Has(flags, 0x04)
    ensures IsSecure(flags) <==> Has(flags, 0x08)
    ensures IsSkip(flags) <==> Has(flags, 0x10)
    ensures IsUserProfile(flags) <==> Has(flags, 0x20)
    ensures IsKernelProfile(flags) <==> Has(flags, 0x40)
    ensures IsPreamble(flags) <==> Has(flags, 0x80)
  {
    hide Shl, Has, Pow2;
    LowMasks();
    LowPowers();
    HasBit(flags, 0, 0x01);
    HasBit(flags, 1, 0x02);
    HasBit(flags, 2, 0x04);
    HasBit(flags, 3, 0x08);
    HasBit(flags, 4, 0x10);
    HasBit(flags, 5, 0x20);
    HasBit(flags, 6, 0x40);
    HasBit(flags, 7, 0x80);
  }

  /** MEMOBJ_SKIP, or KGSL_CMDLIST_CTXTSWITCH_PREAMBLE on a node of a submission without F_PREAMBLE. */
  lemma SkippedNode(ib: IbNode, flags: u32)
    ensures IsSkipped(ib, flags) <==> Has(ib.priv, 0x02) || (Has(ib.flags, 0x02) && !Has(flags, 0x80))
  {
    hide Shl, Has, Pow2;
    LowMasks();
    LowPowers();
    HasBit(ib.priv, 1, 0x02);
    HasBit(ib.flags, 1, 0x02);
    HasBit(flags, 7, 0x80);
  }

  predicate StyleField(flags: u32, value: bv32) {
    And(Word(flags), 0x0E00_0000) == value
  }

  lemma StyleBits(w: bv32)
    ensures And(w, 0x0E00_0000) == 0x0400_0000 <==>
      And(w, 0x0200_0000) == 0 && And(w, 0x0400_0000) != 0 && And(w, 0x0800_0000) == 0
  {
  }

  lemma ThreeBits(x: nat)
    ensures x % 8 == 2 <==> x % 2 == 0 && (x / 2) % 2 == 1 && (x / 4) % 2 == 0
  {
    var a, y := x % 2, x / 2;
    var b, z := y % 2, y / 2;
    var c, w := z % 2, z / 2;
    Field(x, 4, z, 2 * b + a);
    Field(x, 8, w, 4 * c + 2 * b + a);
  }

  lemma Quotients(n: nat)
    ensures n / 0x400_0000 == (n / 0x200_0000) / 2 && n / 0x800_0000 == (n / 0x200_0000) / 4
  {
  }

  /** A context is preempted fine-grained iff it is not secure and its style field holds FINEGRAIN. */
  lemma FineGrained(ctx: Context)
    ensures IsSecureContext(ctx) <==> Has(ctx.flags, 0x2_0000)
    ensures PreemptStyle(Some(ctx)) == STYLE_FINEGRAIN <==>
      !Has(ctx.flags, 0x2_0000) && StyleField(ctx.flags, 0x0400_0000)
    ensures PreemptStyle(None) != STYLE_FINEGRAIN
  {
    var flags := ctx.flags;
    assert PreemptStyle(Some(ctx)) == STYLE_FINEGRAIN <==> !IsSecureContext(ctx) && (flags / 0x200_0000) % 8 == 2;
    hide And, Word, Shl, Pow2, PreemptStyle;
    HighMasks();
    HasBit(flags, 17, 0x2_0000);
    HasBit(flags, 25, 0x200_0000);
    HasBit(flags, 26, 0x400_0000);
    HasBit(flags, 27, 0x800_0000);
    StyleBits(Word(flags));
    ThreeBits(flags / 0x200_0000);
    Quotients(flags);
  }
}
