/*
 * The host-side mock of the STM32G491 peripherals: a bank of seven GPIO
 * port register records (GPIOA .. GPIOG), the RCC record, the routine that
 * plays the hardware's part for the bit set/reset register BSRR by applying
 * it to the output data register ODR, and the pointer-to-index map `port2int`.
 */
module Mock {

  /** Number of GPIO ports in the mock bank (NUM_GPIO_PORTS). */
  const NumGpioPorts: nat := 7

  /** A snapshot of every register of one GPIO port record (GPIO_TypeDef). */
  datatype PortRegs = PortRegs(
    moder: bv32, otyper: bv32, ospeedr: bv32, pupdr: bv32,
    idr: bv32, odr: bv32, bsrr: bv32, lckr: bv32,
    afrl: bv32, afrh: bv32, brr: bv32)

  /*
   * What one pass of `update_GPIO_BSRR` does to a port, stated on the whole
   * registers: every set bit j (< 16) of BSRR drives ODR bit j high, then
   * every reset bit j + 16 drives ODR bit j low, so a reset bit wins over a
   * set bit of the same line; afterwards BSRR is 0.
   */

  /** ODR after applying BSRR once. */
  function AppliedOdr(odr: bv32, bsrr: bv32): bv32
  {
    (odr | (bsrr & 0xFFFF)) & !(bsrr >> 16)
  }

  /** A port's registers after one pass: ODR takes BSRR's effect, BSRR is consumed, nothing else changes. */
  function Updated(r: PortRegs): PortRegs
  {
    r.(odr := AppliedOdr(r.odr, r.bsrr), bsrr := 0)
  }

  /*
   * The loop state after the first j bit positions have been scanned. `done`
   * is the mask of the scanned positions, Done(j) = 2^j - 1.
   */

  /** The loop's shifted copy of BSRR: bit 0 is the position about to be scanned. */
  function Remaining(bsrr: bv32, j: bv32): bv32
    requires j <= 32
  {
    bsrr >> j
  }

  /** The mask of the first j bit positions. */
  function Done(j: bv32): bv32
    requires j <= 32
  {
    ((1 as bv32) << j) - 1
  }

  /** ODR once the positions in `done` have been applied. */
  function OdrAfter(odr0: bv32, bsrr0: bv32, done: bv32): bv32
  {
    (odr0 | (bsrr0 & done & 0xFFFF)) & !((bsrr0 & done) >> 16)
  }

  /** BSRR once the positions in `done` have been consumed. */
  function Pending(bsrr0: bv32, done: bv32): bv32
  {
    bsrr0 & !done
  }

  lemma RegBitSet(bsrr0: bv32, j: bv32, reg: bv32)
    requires j < 32 && reg == Remaining(bsrr0, j) && reg & 1 != 0
    ensures bsrr0 & (1 << j) == 1 << j
  {
  }

  lemma RegBitClear(bsrr0: bv32, j: bv32, reg: bv32)
    requires j < 32 && reg == Remaining(bsrr0, j) && reg & 1 == 0
    ensures bsrr0 & (1 << j) == 0
  {
  }

  lemma LowBits(j: bv32)
    requires j < 16
    ensures ((1 as bv32) << j) & 0xFFFF_0000 == 0 && Done(j) & 0xFFFF_0000 == 0
  {
  }

  lemma HighBits(j: bv32, bit: bv32, low: bv32, done: bv32)
    requires 16 <= j < 32 && bit == 1 << j && low == 1 << (j - 16) && done == Done(j)
    ensures low & 0xFFFF_0000 == 0 && low << 16 == bit && done & 0xFFFF == 0xFFFF
  {
  }

  lemma Grow(j: bv32)
    requires j < 32
    ensures Done(j + 1) == Done(j) | (1 << j)
  {
  }

  /** ODR with line j driven high by set bit j < 16. */
  function DriveHigh(odr: bv32, j: bv32): bv32
    requires j < 16
  {
    odr | (1 << j)
  }

  /** ODR with line j - 16 driven low by reset bit 16 <= j < 32. */
  function DriveLow(odr: bv32, j: bv32): bv32
    requires 16 <= j < 32
  {
    odr & !(1 << (j - 16))
  }

  /** BSRR with bit j consumed. */
  function Consume(bsrr: bv32, j: bv32): bv32
    requires j < 32
  {
    bsrr & !(1 << j)
  }

  lemma SetHit(odr0: bv32, bsrr0: bv32, done: bv32, b: bv32, odr: bv32, done': bv32)
    requires b & 0xFFFF_0000 == 0 && done & 0xFFFF_0000 == 0 && bsrr0 & b == b
    requires odr == OdrAfter(odr0, bsrr0, done) && done' == done | b
    ensures odr | b == OdrAfter(odr0, bsrr0, done')
  {
  }

  lemma ResetHit(odr0: bv32, bsrr0: bv32, done: bv32, j: bv32, bit: bv32, low: bv32, odr: bv32, done': bv32)
    requires 16 <= j < 32 && low == 1 << (j - 16)
    requires done & 0xFFFF == 0xFFFF && low & 0xFFFF_0000 == 0 && bit == low << 16 && bsrr0 & bit == bit
    requires odr == OdrAfter(odr0, bsrr0, done) && done' == done | bit
    ensures DriveLow(odr, j) == OdrAfter(odr0, bsrr0, done')
  {
  }

  lemma Miss(odr0: bv32, bsrr0: bv32, done: bv32, b: bv32, odr: bv32, bsrr: bv32, done': bv32)
    requires bsrr0 & b == 0 && done' == done | b
    requires odr == OdrAfter(odr0, bsrr0, done) && bsrr == Pending(bsrr0, done)
    ensures odr == OdrAfter(odr0, bsrr0, done') && bsrr == Pending(bsrr0, done')
  {
  }

  lemma PendingHit(bsrr0: bv32, done: bv32, b: bv32, bsrr: bv32, done': bv32)
    requires bsrr == Pending(bsrr0, done) && done' == done | b
    ensures bsrr & !b == Pending(bsrr0, done')
  {
  }

  /** Consuming bit j of BSRR takes its loop state from j to j + 1 positions scanned. */
  lemma ConsumeStep(bsrr0: bv32, j: bv32, bsrr: bv32)
    requires j < 32 && bsrr == Pending(bsrr0, Done(j))
    ensures Consume(bsrr, j) == Pending(bsrr0, Done(j + 1))
  {
    Grow(j);
    PendingHit(bsrr0, Done(j), 1 << j, bsrr, Done(j + 1));
  }

  /** Set bit j < 16: driving ODR line j high takes its loop state from j to j + 1 positions. */
  lemma DriveHighStep(odr0: bv32, bsrr0: bv32, j: bv32, reg: bv32, odr: bv32)
    requires j < 16 && reg == Remaining(bsrr0, j) && reg & 1 != 0
    requires odr == OdrAfter(odr0, bsrr0, Done(j))
    ensures DriveHigh(odr, j) == OdrAfter(odr0, bsrr0, Done(j + 1))
  {
    var bit: bv32 := 1 << j;
    var done, done' := Done(j), Done(j + 1);
    Grow(j);
    RegBitSet(bsrr0, j, reg);
    LowBits(j);
    SetHit(odr0, bsrr0, done, bit, odr, done');
  }

  /** Reset bit 16 <= j < 32: driving ODR line j - 16 low takes its loop state from j to j + 1 positions. */
  lemma DriveLowStep(odr0: bv32, bsrr0: bv32, j: bv32, reg: bv32, odr: bv32)
    requires 16 <= j < 32 && reg == Remaining(bsrr0, j) && reg & 1 != 0
    requires odr == OdrAfter(odr0, bsrr0, Done(j))
    ensures DriveLow(odr, j) == OdrAfter(odr0, bsrr0, Done(j + 1))
  {
    var bit: bv32, low: bv32 := 1 << j, 1 << (j - 16);
    var done, done' := Done(j), Done(j + 1);
    ResetBitFacts(bsrr0, j, reg, bit, low, done, done');
    ResetHit(odr0, bsrr0, done, j, bit, low, odr, done');
  }

  /** What ResetHit needs to know about reset bit j, in terms of the step's variables. */
  lemma ResetBitFacts(bsrr0: bv32, j: bv32, reg: bv32, bit: bv32, low: bv32, done: bv32, done': bv32)
    requires 16 <= j < 32 && reg == Remaining(bsrr0, j) && reg & 1 != 0
    requires bit == 1 << j && low == 1 << (j - 16)
    requires done == Done(j) && done' == Done(j + 1)
    ensures done & 0xFFFF == 0xFFFF && low & 0xFFFF_0000 == 0 && bit == low << 16
    ensures bsrr0 & bit == bit && done' == done | bit
  {
    Grow(j);
    RegBitSet(bsrr0, j, reg);
    HighBits(j, bit, low, done);
  }

  /**
   * Position j < 16 with its bit set: driving ODR line j high and consuming
   * bit j of BSRR takes the loop state from j to j + 1 positions scanned.
   */
  lemma SetCase(odr0: bv32, bsrr0: bv32, j: bv32, reg: bv32, odr: bv32, bsrr: bv32)
    requires j < 16 && reg == Remaining(bsrr0, j) && reg & 1 != 0
    requires odr == OdrAfter(odr0, bsrr0, Done(j)) && bsrr == Pending(bsrr0, Done(j))
    ensures DriveHigh(odr, j) == OdrAfter(odr0, bsrr0, Done(j + 1))
    ensures Consume(bsrr, j) == Pending(bsrr0, Done(j + 1))
  {
    DriveHighStep(odr0, bsrr0, j, reg, odr);
    ConsumeStep(bsrr0, j, bsrr);
  }

  /**
   * Position j >= 16 with its bit set: driving ODR line j - 16 low and
   * consuming bit j of BSRR takes the loop state from j to j + 1 positions.
   */
  lemma ResetCase(odr0: bv32, bsrr0: bv32, j: bv32, reg: bv32, odr: bv32, bsrr: bv32)
    requires 16 <= j < 32 && reg == Remaining(bsrr0, j) && reg & 1 != 0
    requires odr == OdrAfter(odr0, bsrr0, Done(j)) && bsrr == Pending(bsrr0, Done(j))
    ensures DriveLow(odr, j) == OdrAfter(odr0, bsrr0, Done(j + 1))
    ensures Consume(bsrr, j) == Pending(bsrr0, Done(j + 1))
  {
    DriveLowStep(odr0, bsrr0, j, reg, odr);
    ConsumeStep(bsrr0, j, bsrr);
  }

  /** A position whose bit is clear: leaving ODR and BSRR alone advances the loop state. */
  lemma SkipCase(odr0: bv32, bsrr0: bv32, j: bv32, reg: bv32, odr: bv32, bsrr: bv32)
    requires j < 32 && reg == Remaining(bsrr0, j) && reg & 1 == 0
    requires odr == OdrAfter(odr0, bsrr0, Done(j)) && bsrr == Pending(bsrr0, Done(j))
    ensures odr == OdrAfter(odr0, bsrr0, Done(j + 1)) && bsrr == Pending(bsrr0, Done(j + 1))
  {
    Grow(j);
    RegBitClear(bsrr0, j, reg);
    Miss(odr0, bsrr0, Done(j), 1 << j, odr, bsrr, Done(j + 1));
  }

  /** Shifting the loop's copy of BSRR right by one moves to the next position. */
  lemma ShrStep(bsrr0: bv32, j: bv32, reg: bv32)
    requires j < 32 && reg == Remaining(bsrr0, j)
    ensures reg >> 1 == Remaining(bsrr0, j + 1)
  {
  }

  /** With all 32 positions scanned, the loop state is the whole-register effect. */
  lemma ScanComplete(odr0: bv32, bsrr0: bv32)
    ensures OdrAfter(odr0, bsrr0, Done(32)) == AppliedOdr(odr0, bsrr0)
    ensures Pending(bsrr0, Done(32)) == 0
  {
  }

  /** One set bit j < 16 scanned. */
  function SetLine(r: PortRegs, j: bv32): PortRegs
    requires j < 16
  {
    r.(odr := DriveHigh(r.odr, j), bsrr := Consume(r.bsrr, j))
  }

  /** One set bit 16 <= j < 32 scanned. */
  function ResetLine(r: PortRegs, j: bv32): PortRegs
    requires 16 <= j < 32
  {
    r.(odr := DriveLow(r.odr, j), bsrr := Consume(r.bsrr, j))
  }

  /**
   * The inner loop of `update_GPIO_BSRR` read as a recursion over the bit
   * position: the port's registers once positions j .. 31 have been scanned,
   * starting from `r` with `reg` the loop's shifted copy of BSRR.
   */
  function Scan(r: PortRegs, reg: bv32, j: bv32): PortRegs
    requires j <= 32
    decreases 32 - j
  {
    if j == 32 then r
    else if reg & 1 == 0 then Scan(r, reg >> 1, j + 1)
    else if j < 16 then Scan(SetLine(r, j), reg >> 1, j + 1)
    else Scan(ResetLine(r, j), reg >> 1, j + 1)
  }

  /** The loop state after j positions, on a whole port record. */
  predicate ScannedTo(r: PortRegs, odr0: bv32, bsrr0: bv32, j: bv32)
    requires j <= 32
  {
    r.odr == OdrAfter(odr0, bsrr0, Done(j)) && r.bsrr == Pending(bsrr0, Done(j))
  }

  /**
   * From any loop state reached after j positions, scanning the rest ends
   * in the whole-register effect: ODR is the applied value and BSRR is 0.
   */
  lemma {:induction false} ScanFrom(odr0: bv32, bsrr0: bv32, j: bv32, r: PortRegs)
    requires j <= 32 && ScannedTo(r, odr0, bsrr0, j)
    ensures Scan(r, Remaining(bsrr0, j), j) == r.(odr := AppliedOdr(odr0, bsrr0), bsrr := 0)
    decreases 32 - j, 1
  {
    if j == 32 {
      ScanComplete(odr0, bsrr0);
    } else if Remaining(bsrr0, j) & 1 == 0 {
      ScanFromSkip(odr0, bsrr0, j, r);
    } else if j < 16 {
      ScanFromSet(odr0, bsrr0, j, r);
    } else {
      ScanFromReset(odr0, bsrr0, j, r);
    }
  }

  /** One unfolding of Scan at a position whose bit is clear. */
  lemma ScanSkipUnfold(r: PortRegs, reg: bv32, j: bv32)
    requires j < 32 && reg & 1 == 0
    ensures Scan(r, reg, j) == Scan(r, reg >> 1, j + 1)
  {
  }

  /** One unfolding of Scan at a set bit j < 16. */
  lemma ScanSetUnfold(r: PortRegs, reg: bv32, j: bv32)
    requires j < 16 && reg & 1 != 0
    ensures Scan(r, reg, j) == Scan(SetLine(r, j), reg >> 1, j + 1)
  {
  }

  /** One unfolding of Scan at a set bit 16 <= j < 32. */
  lemma ScanResetUnfold(r: PortRegs, reg: bv32, j: bv32)
    requires 16 <= j < 32 && reg & 1 != 0
    ensures Scan(r, reg, j) == Scan(ResetLine(r, j), reg >> 1, j + 1)
  {
  }

  /** ScanFrom at a position whose bit is clear. */
  lemma {:induction false} ScanFromSkip(odr0: bv32, bsrr0: bv32, j: bv32, r: PortRegs)
    requires j < 32 && ScannedTo(r, odr0, bsrr0, j) && Remaining(bsrr0, j) & 1 == 0
    ensures Scan(r, Remaining(bsrr0, j), j) == r.(odr := AppliedOdr(odr0, bsrr0), bsrr := 0)
    decreases 32 - j, 0
  {
    var reg := Remaining(bsrr0, j);
    ShrStep(bsrr0, j, reg);
    ScanSkipUnfold(r, reg, j);
    SkipCase(odr0, bsrr0, j, reg, r.odr, r.bsrr);
    ScanFrom(odr0, bsrr0, j + 1, r);
  }

  /** ScanFrom at a set bit j < 16. */
  lemma {:induction false} ScanFromSet(odr0: bv32, bsrr0: bv32, j: bv32, r: PortRegs)
    requires j < 16 && ScannedTo(r, odr0, bsrr0, j) && Remaining(bsrr0, j) & 1 != 0
    ensures Scan(r, Remaining(bsrr0, j), j) == r.(odr := AppliedOdr(odr0, bsrr0), bsrr := 0)
    decreases 32 - j, 0
  {
    var reg := Remaining(bsrr0, j);
    ShrStep(bsrr0, j, reg);
    ScanSetUnfold(r, reg, j);
    SetCase(odr0, bsrr0, j, reg, r.odr, r.bsrr);
    ScanFrom(odr0, bsrr0, j + 1, SetLine(r, j));
  }

  /** ScanFrom at a set bit 16 <= j < 32. */
  lemma {:induction false} ScanFromReset(odr0: bv32, bsrr0: bv32, j: bv32, r: PortRegs)
    requires 16 <= j < 32 && ScannedTo(r, odr0, bsrr0, j) && Remaining(bsrr0, j) & 1 != 0
    ensures Scan(r, Remaining(bsrr0, j), j) == r.(odr := AppliedOdr(odr0, bsrr0), bsrr := 0)
    decreases 32 - j, 0
  {
    var reg := Remaining(bsrr0, j);
    ShrStep(bsrr0, j, reg);
    ScanResetUnfold(r, reg, j);
    ResetCase(odr0, bsrr0, j, reg, r.odr, r.bsrr);
    ScanFrom(odr0, bsrr0, j + 1, ResetLine(r, j));
  }

  /** The loop state before any position is scanned. */
  lemma ScanStart(odr: bv32, bsrr: bv32)
    ensures OdrAfter(odr, bsrr, Done(0)) == odr && Pending(bsrr, Done(0)) == bsrr
    ensures Remaining(bsrr, 0) == bsrr
  {
  }

  /** The bit-by-bit loop, run over all 32 positions, has the whole-register effect `Updated`. */
  lemma ScanIsUpdate(r: PortRegs)
    ensures Scan(r, r.bsrr, 0) == Updated(r)
  {
    ScanStart(r.odr, r.bsrr);
    ScanFrom(r.odr, r.bsrr, 0, r);
  }

  /** A set bit j < 16 whose reset bit j + 16 is clear drives ODR bit j high. */
  lemma SetBitDrivesHigh(odr: bv32, bsrr: bv32, j: bv32)
    requires j < 16 && bsrr & ((1 as bv32) << j) != 0 && bsrr & ((1 as bv32) << (j + 16)) == 0
    ensures AppliedOdr(odr, bsrr) & ((1 as bv32) << j) != 0
  {
  }

  /**
   * A reset bit j + 16 drives ODR bit j low whatever set bit j says: the
   * reset half is scanned after the set half, so reset wins.
   */
  lemma ResetBitDrivesLow(odr: bv32, bsrr: bv32, j: bv32)
    requires j < 16 && bsrr & ((1 as bv32) << (j + 16)) != 0
    ensures AppliedOdr(odr, bsrr) & ((1 as bv32) << j) == 0
  {
  }

  /** With neither bit j nor bit j + 16 of BSRR set, ODR bit j keeps its value. */
  lemma UntouchedBitKept(odr: bv32, bsrr: bv32, j: bv32)
    requires j < 16 && bsrr & ((1 as bv32) << j) == 0 && bsrr & ((1 as bv32) << (j + 16)) == 0
    ensures AppliedOdr(odr, bsrr) & ((1 as bv32) << j) == odr & ((1 as bv32) << j)
  {
  }

  /** ODR bits 16-31 are never touched. */
  lemma HighOdrKept(odr: bv32, bsrr: bv32)
    ensures AppliedOdr(odr, bsrr) & 0xFFFF_0000 == odr & 0xFFFF_0000
  {
  }

  /** A pass leaves BSRR 0, so a second pass right after the first changes nothing. */
  lemma UpdateIdempotent(r: PortRegs)
    ensures Updated(Updated(r)) == Updated(r)
  {
  }

  /** One GPIO port register record (GPIO_TypeDef); AFR[0] and AFR[1] are AFRL and AFRH. */
  class GpioPort {
    var MODER: bv32
    var OTYPER: bv32
    var OSPEEDR: bv32
    var PUPDR: bv32
    var IDR: bv32
    var ODR: bv32
    var BSRR: bv32
    var LCKR: bv32
    var AFRL: bv32
    var AFRH: bv32
    var BRR: bv32

    /** A record of static storage: every register starts at 0. */
    constructor ()
      ensures Regs() == PortRegs(0, 0, 0, 0, 0, 0, 0, 0, 0, 0, 0)
    {
      MODER, OTYPER, OSPEEDR, PUPDR := 0, 0, 0, 0;
      IDR, ODR, BSRR, LCKR := 0, 0, 0, 0;
      AFRL, AFRH, BRR := 0, 0, 0;
    }

    /** The current value of every register. */
    function Regs(): PortRegs
      reads this
    {
      PortRegs(MODER, OTYPER, OSPEEDR, PUPDR, IDR, ODR, BSRR, LCKR, AFRL, AFRH, BRR)
    }

    /**
     * One iteration of the inner loop of `update_GPIO_BSRR`, at bit position
     * j with `reg` the loop's shifted copy of BSRR: a set bit below 16 ORs
     * ODR bit j in, a set bit from 16 up clears ODR bit j - 16, and either
     * way clears BSRR bit j.
     */
    method ScanBit(ghost odr0: bv32, ghost bsrr0: bv32, j: bv32, reg: bv32) returns (next: bv32)
      requires j < 32 && reg == Remaining(bsrr0, j)
      requires ODR == OdrAfter(odr0, bsrr0, Done(j)) && BSRR == Pending(bsrr0, Done(j))
      modifies this
      ensures ODR == OdrAfter(odr0, bsrr0, Done(j + 1)) && BSRR == Pending(bsrr0, Done(j + 1))
      ensures next == Remaining(bsrr0, j + 1)
      ensures Regs() == old(Regs()).(odr := ODR, bsrr := BSRR)
      ensures Scan(Regs(), next, j + 1) == Scan(old(Regs()), reg, j)
    {
      ghost var r := Regs();
      var odr, bsrr := ODR, BSRR;
      if j < 16 {
        // set half
        if reg & 1 != 0 {
          SetCase(odr0, bsrr0, j, reg, odr, bsrr);
          ODR := DriveHigh(odr, j);
          BSRR := Consume(bsrr, j);
          ScanSetUnfold(r, reg, j);
        } else {
          SkipCase(odr0, bsrr0, j, reg, odr, bsrr);
          ScanSkipUnfold(r, reg, j);
        }
      } else {
        // reset half
        if reg & 1 != 0 {
          ResetCase(odr0, bsrr0, j, reg, odr, bsrr);
          ODR := DriveLow(odr, j);
          BSRR := Consume(bsrr, j);
          ScanResetUnfold(r, reg, j);
        } else {
          SkipCase(odr0, bsrr0, j, reg, odr, bsrr);
          ScanSkipUnfold(r, reg, j);
        }
      }
      ShrStep(bsrr0, j, reg);
      next := reg >> 1;
    }

    /** The body of the outer loop of `update_GPIO_BSRR` for this port. */
    method ApplyBsrr()
      modifies this
      ensures Regs() == Updated(old(Regs()))
      ensures Regs() == Scan(old(Regs()), old(BSRR), 0)
    {
      ghost var odr0, bsrr0 := ODR, BSRR;
      var reg := BSRR;
      var j: bv32 := 0;
      while j < 32
        invariant j <= 32
        invariant reg == Remaining(bsrr0, j)
        invariant ODR == OdrAfter(odr0, bsrr0, Done(j)) && BSRR == Pending(bsrr0, Done(j))
        invariant Regs() == old(Regs()).(odr := ODR, bsrr := BSRR)
        invariant Scan(Regs(), reg, j) == Scan(old(Regs()), bsrr0, 0)
      {
        reg := ScanBit(odr0, bsrr0, j, reg);
        j := j + 1;
      }
      ScanComplete(odr0, bsrr0);
    }
  }

  /** The reset and clock control record (RCC_TypeDef); only AHB2ENR is ever used. */
  class Rcc {
    var AHB2ENR: bv32

    constructor ()
      ensures AHB2ENR == 0
    {
      AHB2ENR := 0;
    }
  }

  /**
   * The mock's global peripherals: the array `mock_GPIO_ports`, whose
   * elements GPIOA .. GPIOG point at, and the RCC record.
   */
  class Chip {
    const ports: seq<GpioPort>
    const rcc: Rcc

    /** Seven distinct port records. */
    ghost predicate Valid()
    {
      |ports| == NumGpioPorts &&
      forall i, k :: 0 <= i < |ports| && 0 <= k < |ports| && i != k ==> ports[i] != ports[k]
    }

    constructor ()
      ensures Valid()
      ensures forall i :: 0 <= i < |ports| ==> fresh(ports[i]) && ports[i].Regs() == PortRegs(0, 0, 0, 0, 0, 0, 0, 0, 0, 0, 0)
      ensures fresh(rcc) && rcc.AHB2ENR == 0
    {
      var bank: seq<GpioPort> := [];
      while |bank| < NumGpioPorts
        invariant |bank| <= NumGpioPorts
        invariant forall i :: 0 <= i < |bank| ==> fresh(bank[i]) && bank[i].Regs() == PortRegs(0, 0, 0, 0, 0, 0, 0, 0, 0, 0, 0)
        invariant forall i, k :: 0 <= i < |bank| && 0 <= k < |bank| && i != k ==> bank[i] != bank[k]
      {
        var port := new GpioPort();
        bank := bank + [port];
      }
      ports := bank;
      rcc := new Rcc();
    }

    /**
     * `update_GPIO_BSRR`: every port of the bank takes its own BSRR into its
     * own ODR and ends with BSRR 0; no other register of any port changes.
     */
    method UpdateGpioBsrr()
      requires Valid()
      modifies ports
      ensures forall i :: 0 <= i < |ports| ==> ports[i].Regs() == Updated(old(ports[i].Regs()))
    {
      for i := 0 to |ports|
        invariant forall k :: 0 <= k < i ==> ports[k].Regs() == Updated(old(ports[k].Regs()))
        invariant forall k :: i <= k < |ports| ==> ports[k].Regs() == old(ports[k].Regs())
      {
        ports[i].ApplyBsrr();
      }
    }

    /** `port2int`: the index of a port record in the bank, and 0 for any other record. */
    function Port2Int(port: GpioPort): (n: bv16)
      requires Valid()
      ensures n < NumGpioPorts as bv16
      ensures forall i :: 0 <= i < |ports| && ports[i] == port ==> n == i as bv16
      ensures (forall i :: 0 <= i < |ports| ==> ports[i] != port) ==> n == 0
    {
      if port == ports[0] then 0
      else if port == ports[1] then 1
      else if port == ports[2] then 2
      else if port == ports[3] then 3
      else if port == ports[4] then 4
      else if port == ports[5] then 5
      else if port == ports[6] then 6
      else 0
    }
  }
}
