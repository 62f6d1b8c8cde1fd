/*
 * The GPIO driver (class GPIO_Class) over the mock register bank. The class
 * has no state of its own: every operation reaches the port records GPIOA ..
 * GPIOG and the RCC record, which the model passes in as the `Mock.Chip`
 * holding them. A pin's setting occupies slot `pin` of a register, a field of
 * 1, 2 or 4 bits at offset pin * width; the driver writes it by clearing the
 * slot and then ORing the new code in.
 */
module Gpio {
  import Hal
  import opened GpioTypes
  import Mock

  // ---------------------------------------------------------------------------
  // Port lookup
  // ---------------------------------------------------------------------------

  /** `port_enum2Register`: the register record of a port, GPIOA .. GPIOG. */
  function PortRegister(chip: Mock.Chip, port: Port): (prt: Mock.GpioPort)
    requires chip.Valid()
    ensures prt in chip.ports
  {
    match port
    case PortA => chip.ports[0]
    case PortB => chip.ports[1]
    case PortC => chip.ports[2]
    case PortD => chip.ports[3]
    case PortE => chip.ports[4]
    case PortF => chip.ports[5]
    case PortG => chip.ports[6]
  }

  /** The port's enable bit in RCC AHB2ENR: A -> 0 .. G -> 6. */
  function ClockPosition(port: Port): (k: bv8)
    ensures k < 7
  {
    match port
    case PortA => 0
    case PortB => 1
    case PortC => 2
    case PortD => 3
    case PortE => 4
    case PortF => 5
    case PortG => 6
  }

  /**
   * The three port numberings agree: `port2int` of the record
   * `port_enum2Register` returns is the port's clock-enable bit.
   */
  lemma PortNumberingsAgree(chip: Mock.Chip, port: Port)
    requires chip.Valid()
    ensures chip.Port2Int(PortRegister(chip, port)) == ClockPosition(port) as bv16
  {
  }

  /** Distinct ports have distinct register records and distinct clock bits. */
  lemma PortsDistinct(chip: Mock.Chip, p: Port, q: Port)
    requires chip.Valid() && p != q
    ensures PortRegister(chip, p) != PortRegister(chip, q)
    ensures ClockPosition(p) != ClockPosition(q)
  {
  }

  // ---------------------------------------------------------------------------
  // Pin configuration
  // ---------------------------------------------------------------------------

  /** Offset of slot `pin` of a register of `width`-bit fields. */
  function Slot(pin: bv8, width: bv16): bv32
  {
    Hal.Shift(pin as bv16, width)
  }

  /** The registers after `set_mode`: slot `pin` of MODER holds the mode. */
  function WithMode(r: Mock.PortRegs, pin: bv8, mode: PinMode): Mock.PortRegs
    requires pin < 16
  {
    r.(moder := Hal.WriteAt(r.moder, Slot(pin, 2), 2, ModeBits(mode) as bv32))
  }

  /** The registers after `set_otype`: bit `pin` of OTYPER holds the type. */
  function WithType(r: Mock.PortRegs, pin: bv8, t: PinType): Mock.PortRegs
    requires pin < 32
  {
    r.(otyper := Hal.WriteAt(r.otyper, Slot(pin, 1), 1, TypeBits(t) as bv32))
  }

  /** The registers after `set_ospeed`: slot `pin` of OSPEEDR holds the speed. */
  function WithSpeed(r: Mock.PortRegs, pin: bv8, speed: PinSpeed): Mock.PortRegs
    requires pin < 16
  {
    r.(ospeedr := Hal.WriteAt(r.ospeedr, Slot(pin, 2), 2, SpeedBits(speed) as bv32))
  }

  /** The registers after `set_pullup_pulldown`: slot `pin` of PUPDR holds the pull setting. */
  function WithPupd(r: Mock.PortRegs, pin: bv8, pupd: PinPupd): Mock.PortRegs
    requires pin < 16
  {
    r.(pupdr := Hal.WriteAt(r.pupdr, Slot(pin, 2), 2, PupdBits(pupd) as bv32))
  }

  /** The AFR register holding pin `pin`'s alternate function: AFR[0] (AFRL) for pins 0-7, AFR[1] (AFRH) for 8-15. */
  function AfRegister(r: Mock.PortRegs, pin: bv8): bv32
  {
    if pin < 8 then r.afrl else r.afrh
  }

  /** The slot of pin `pin` within its AFR register. */
  function AfSlot(pin: bv8): bv8
    requires pin < 16
  {
    if pin < 8 then pin else pin - 8
  }

  /** The registers with pin `pin`'s AFR register replaced by `value`. */
  function WithAfRegister(r: Mock.PortRegs, pin: bv8, value: bv32): Mock.PortRegs
  {
    if pin < 8 then r.(afrl := value) else r.(afrh := value)
  }

  /** The registers after `set_alternate_function`: the pin's slot of its AFR register holds the function. */
  function WithAf(r: Mock.PortRegs, pin: bv8, af: PinAf): Mock.PortRegs
    requires pin < 16
  {
    WithAfRegister(r, pin, Hal.WriteAt(AfRegister(r, pin), Slot(AfSlot(pin), 4), 4, AfBits(af) as bv32))
  }

  /** The mode slot `pin` of MODER stands for. */
  function ModeOfPin(r: Mock.PortRegs, pin: bv8): Option<PinMode>
    requires pin < 16
  {
    ModeOf(Hal.ReadAt(r.moder, Slot(pin, 2), 2) as bv8)
  }

  /** The output type bit `pin` of OTYPER stands for. */
  function TypeOfPin(r: Mock.PortRegs, pin: bv8): Option<PinType>
    requires pin < 32
  {
    TypeOf(Hal.ReadAt(r.otyper, Slot(pin, 1), 1) as bv8)
  }

  /** The speed grade slot `pin` of OSPEEDR stands for. */
  function SpeedOfPin(r: Mock.PortRegs, pin: bv8): Option<PinSpeed>
    requires pin < 16
  {
    SpeedOf(Hal.ReadAt(r.ospeedr, Slot(pin, 2), 2) as bv8)
  }

  /** The pull setting slot `pin` of PUPDR stands for. */
  function PupdOfPin(r: Mock.PortRegs, pin: bv8): Option<PinPupd>
    requires pin < 16
  {
    PupdOf(Hal.ReadAt(r.pupdr, Slot(pin, 2), 2) as bv8)
  }

  /** The 4-bit code in pin `pin`'s slot of AFRL or AFRH. */
  function AfCodeOfPin(r: Mock.PortRegs, pin: bv8): bv32
    requires pin < 16
  {
    Hal.ReadAt(AfRegister(r, pin), Slot(AfSlot(pin), 4), 4)
  }

  /** The alternate function of `pin`, from AFRL or AFRH. */
  function AfOfPin(r: Mock.PortRegs, pin: bv8): Option<PinAf>
    requires pin < 16
  {
    AfOf(AfCodeOfPin(r, pin) as bv8)
  }

  /** `set_mode`: clears MODER slot `pin`, then ORs the mode's code into it. */
  method SetMode(chip: Mock.Chip, port: Port, pin: bv8, mode: PinMode)
    requires chip.Valid() && pin < 16
    modifies PortRegister(chip, port)
    ensures PortRegister(chip, port).Regs() == WithMode(old(PortRegister(chip, port).Regs()), pin, mode)
  {
    var prt := PortRegister(chip, port);
    prt.MODER := Hal.ClearAt(prt.MODER, Slot(pin, 2), 2);
    prt.MODER := Hal.SetAt(prt.MODER, Slot(pin, 2), ModeBits(mode) as bv32);
  }

  /** `set_otype`: clears OTYPER bit `pin`, then ORs the type's code into it. */
  method SetOtype(chip: Mock.Chip, port: Port, pin: bv8, t: PinType)
    requires chip.Valid() && pin < 32
    modifies PortRegister(chip, port)
    ensures PortRegister(chip, port).Regs() == WithType(old(PortRegister(chip, port).Regs()), pin, t)
  {
    var prt := PortRegister(chip, port);
    prt.OTYPER := Hal.ClearAt(prt.OTYPER, Slot(pin, 1), 1);
    prt.OTYPER := Hal.SetAt(prt.OTYPER, Slot(pin, 1), TypeBits(t) as bv32);
  }

  /** `set_ospeed`: clears OSPEEDR slot `pin`, then ORs the speed's code into it. */
  method SetOspeed(chip: Mock.Chip, port: Port, pin: bv8, speed: PinSpeed)
    requires chip.Valid() && pin < 16
    modifies PortRegister(chip, port)
    ensures PortRegister(chip, port).Regs() == WithSpeed(old(PortRegister(chip, port).Regs()), pin, speed)
  {
    var prt := PortRegister(chip, port);
    prt.OSPEEDR := Hal.ClearAt(prt.OSPEEDR, Slot(pin, 2), 2);
    prt.OSPEEDR := Hal.SetAt(prt.OSPEEDR, Slot(pin, 2), SpeedBits(speed) as bv32);
  }

  /** `set_pullup_pulldown`: clears PUPDR slot `pin`, then ORs the pull code into it. */
  method SetPullupPulldown(chip: Mock.Chip, port: Port, pin: bv8, pupd: PinPupd)
    requires chip.Valid() && pin < 16
    modifies PortRegister(chip, port)
    ensures PortRegister(chip, port).Regs() == WithPupd(old(PortRegister(chip, port).Regs()), pin, pupd)
  {
    var prt := PortRegister(chip, port);
    prt.PUPDR := Hal.ClearAt(prt.PUPDR, Slot(pin, 2), 2);
    prt.PUPDR := Hal.SetAt(prt.PUPDR, Slot(pin, 2), PupdBits(pupd) as bv32);
  }

  /** `set_alternate_function`: the same clear-then-OR on AFR[0] or AFR[1]. */
  method SetAlternateFunction(chip: Mock.Chip, port: Port, pin: bv8, af: PinAf)
    requires chip.Valid() && pin < 16
    modifies PortRegister(chip, port)
    ensures PortRegister(chip, port).Regs() == WithAf(old(PortRegister(chip, port).Regs()), pin, af)
  {
    var prt := PortRegister(chip, port);
    if pin < 8 {
      prt.AFRL := Hal.ClearAt(prt.AFRL, Slot(pin, 4), 4);
      prt.AFRL := Hal.SetAt(prt.AFRL, Slot(pin, 4), AfBits(af) as bv32);
    } else {
      prt.AFRH := Hal.ClearAt(prt.AFRH, Slot(pin - 8, 4), 4);
      prt.AFRH := Hal.SetAt(prt.AFRH, Slot(pin - 8, 4), AfBits(af) as bv32);
    }
  }

  // ---------------------------------------------------------------------------
  // What the setters leave behind
  // ---------------------------------------------------------------------------

  /** A slot of a register of 1-, 2- or 4-bit fields that lies inside the register. */
  lemma SlotFits(pin: bv8, width: bv16)
    requires width == 1 || width == 2 || width == 4
    requires pin as bv32 * width as bv32 < 32
    ensures Hal.Fits(Slot(pin, width), width)
  {
  }

  /** Two different slots of the same register share no bit. */
  lemma SlotsDisjoint(pin: bv8, other: bv8, width: bv16)
    requires width == 1 || width == 2 || width == 4
    requires pin as bv32 * width as bv32 < 32 && other as bv32 * width as bv32 < 32 && pin != other
    ensures Hal.Disjoint(Hal.FieldMask(Slot(pin, width), width), Hal.FieldMask(Slot(other, width), width))
  {
    if width == 1 {
      assert Hal.Disjoint(Hal.FieldMask(Slot(pin, 1), 1), Hal.FieldMask(Slot(other, 1), 1));
    } else if width == 2 {
      assert Hal.Disjoint(Hal.FieldMask(Slot(pin, 2), 2), Hal.FieldMask(Slot(other, 2), 2));
    } else {
      assert Hal.Disjoint(Hal.FieldMask(Slot(pin, 4), 4), Hal.FieldMask(Slot(other, 4), 4));
    }
  }

  /** A field holding a mode's code reads back as that mode. */
  lemma ModeDecodes(x: bv32, mode: PinMode)
    requires x == ModeBits(mode) as bv32
    ensures ModeOf(x as bv8) == Some(mode)
  {
    ModeRoundTrip(mode, 0);
  }

  /** After `set_mode`, the pin is in the mode set. */
  lemma ModeReadBack(r: Mock.PortRegs, pin: bv8, mode: PinMode)
    requires pin < 16
    ensures ModeOfPin(WithMode(r, pin, mode), pin) == Some(mode)
  {
    SlotFits(pin, 2);
    Hal.WriteAtReadBack(r.moder, Slot(pin, 2), 2, ModeBits(mode) as bv32);
    ModeDecodes(Hal.ReadAt(WithMode(r, pin, mode).moder, Slot(pin, 2), 2), mode);
  }

  /** `set_mode` on one pin leaves the mode of every other pin of the port as it was. */
  lemma ModeOtherPins(r: Mock.PortRegs, pin: bv8, mode: PinMode, other: bv8)
    requires pin < 16 && other < 16 && other != pin
    ensures ModeOfPin(WithMode(r, pin, mode), other) == ModeOfPin(r, other)
  {
    SlotFits(pin, 2);
    SlotFits(other, 2);
    SlotsDisjoint(pin, other, 2);
    Hal.WriteAtOtherField(r.moder, Slot(pin, 2), 2, ModeBits(mode) as bv32, Slot(other, 2));
  }

  /** A bit holding a type's code reads back as that type. */
  lemma TypeDecodes(x: bv32, t: PinType)
    requires x == TypeBits(t) as bv32
    ensures TypeOf(x as bv8) == Some(t)
  {
    TypeRoundTrip(t, 0);
  }

  /** After `set_otype`, the pin has the output type set. */
  lemma TypeReadBack(r: Mock.PortRegs, pin: bv8, t: PinType)
    requires pin < 32
    ensures TypeOfPin(WithType(r, pin, t), pin) == Some(t)
  {
    SlotFits(pin, 1);
    Hal.WriteAtReadBack(r.otyper, Slot(pin, 1), 1, TypeBits(t) as bv32);
    TypeDecodes(Hal.ReadAt(WithType(r, pin, t).otyper, Slot(pin, 1), 1), t);
  }

  /** `set_otype` on one pin leaves the output type of every other pin as it was. */
  lemma TypeOtherPins(r: Mock.PortRegs, pin: bv8, t: PinType, other: bv8)
    requires pin < 32 && other < 32 && other != pin
    ensures TypeOfPin(WithType(r, pin, t), other) == TypeOfPin(r, other)
  {
    SlotFits(pin, 1);
    SlotFits(other, 1);
    SlotsDisjoint(pin, other, 1);
    Hal.WriteAtOtherField(r.otyper, Slot(pin, 1), 1, TypeBits(t) as bv32, Slot(other, 1));
  }

  /** A field holding a speed's code reads back as that speed. */
  lemma SpeedDecodes(x: bv32, speed: PinSpeed)
    requires x == SpeedBits(speed) as bv32
    ensures SpeedOf(x as bv8) == Some(speed)
  {
    SpeedRoundTrip(speed, 0);
  }

  /** After `set_ospeed`, the pin has the speed set. */
  lemma SpeedReadBack(r: Mock.PortRegs, pin: bv8, speed: PinSpeed)
    requires pin < 16
    ensures SpeedOfPin(WithSpeed(r, pin, speed), pin) == Some(speed)
  {
    SlotFits(pin, 2);
    Hal.WriteAtReadBack(r.ospeedr, Slot(pin, 2), 2, SpeedBits(speed) as bv32);
    SpeedDecodes(Hal.ReadAt(WithSpeed(r, pin, speed).ospeedr, Slot(pin, 2), 2), speed);
  }

  /** `set_ospeed` on one pin leaves the speed of every other pin as it was. */
  lemma SpeedOtherPins(r: Mock.PortRegs, pin: bv8, speed: PinSpeed, other: bv8)
    requires pin < 16 && other < 16 && other != pin
    ensures SpeedOfPin(WithSpeed(r, pin, speed), other) == SpeedOfPin(r, other)
  {
    SlotFits(pin, 2);
    SlotFits(other, 2);
    SlotsDisjoint(pin, other, 2);
    Hal.WriteAtOtherField(r.ospeedr, Slot(pin, 2), 2, SpeedBits(speed) as bv32, Slot(other, 2));
  }

  /** A field holding a pull setting's code reads back as that setting. */
  lemma PupdDecodes(x: bv32, pupd: PinPupd)
    requires x == PupdBits(pupd) as bv32
    ensures PupdOf(x as bv8) == Some(pupd)
  {
    PupdRoundTrip(pupd, 0);
  }

  /** After `set_pullup_pulldown`, the pin has the pull setting set. */
  lemma PupdReadBack(r: Mock.PortRegs, pin: bv8, pupd: PinPupd)
    requires pin < 16
    ensures PupdOfPin(WithPupd(r, pin, pupd), pin) == Some(pupd)
  {
    SlotFits(pin, 2);
    Hal.WriteAtReadBack(r.pupdr, Slot(pin, 2), 2, PupdBits(pupd) as bv32);
    PupdDecodes(Hal.ReadAt(WithPupd(r, pin, pupd).pupdr, Slot(pin, 2), 2), pupd);
  }

  /** `set_pullup_pulldown` on one pin leaves the pull setting of every other pin as it was. */
  lemma PupdOtherPins(r: Mock.PortRegs, pin: bv8, pupd: PinPupd, other: bv8)
    requires pin < 16 && other < 16 && other != pin
    ensures PupdOfPin(WithPupd(r, pin, pupd), other) == PupdOfPin(r, other)
  {
    SlotFits(pin, 2);
    SlotFits(other, 2);
    SlotsDisjoint(pin, other, 2);
    Hal.WriteAtOtherField(r.pupdr, Slot(pin, 2), 2, PupdBits(pupd) as bv32, Slot(other, 2));
  }

  /** A field holding an alternate function's number reads back as that function. */
  lemma AfDecodes(x: bv32, af: PinAf)
    requires x == AfBits(af) as bv32
    ensures AfOf(x as bv8) == Some(af)
  {
    AfRoundTrip(af, 0);
  }

  /** After `set_alternate_function`, the pin has the alternate function set, in AFRL or AFRH. */
  lemma AfReadBack(r: Mock.PortRegs, pin: bv8, af: PinAf)
    requires pin < 16
    ensures AfOfPin(WithAf(r, pin, af), pin) == Some(af)
  {
    var slot := AfSlot(pin);
    SlotFits(slot, 4);
    Hal.WriteAtReadBack(AfRegister(r, pin), Slot(slot, 4), 4, AfBits(af) as bv32);
    AfDecodes(AfCodeOfPin(WithAf(r, pin, af), pin), af);
  }

  /** Writing one 4-bit slot of an AFR register leaves every other slot of it as it was. */
  lemma AfSlotOther(x: bv32, slot: bv8, af: PinAf, other: bv8)
    requires slot < 8 && other < 8 && other != slot
    ensures Hal.ReadAt(Hal.WriteAt(x, Slot(slot, 4), 4, AfBits(af) as bv32), Slot(other, 4), 4)
         == Hal.ReadAt(x, Slot(other, 4), 4)
  {
    SlotFits(slot, 4);
    SlotFits(other, 4);
    SlotsDisjoint(slot, other, 4);
    Hal.WriteAtOtherField(x, Slot(slot, 4), 4, AfBits(af) as bv32, Slot(other, 4));
  }

  /** Register records whose code for a pin agrees give the pin the same alternate function. */
  lemma AfSameCode(r: Mock.PortRegs, s: Mock.PortRegs, pin: bv8)
    requires pin < 16 && AfCodeOfPin(r, pin) == AfCodeOfPin(s, pin)
    ensures AfOfPin(r, pin) == AfOfPin(s, pin)
  {
  }

  /** `set_alternate_function` on one pin leaves the code of every other pin as it was. */
  lemma AfOtherCodes(r: Mock.PortRegs, pin: bv8, af: PinAf, other: bv8)
    requires pin < 16 && other < 16 && other != pin
    ensures AfCodeOfPin(WithAf(r, pin, af), other) == AfCodeOfPin(r, other)
  {
    if pin < 8 && other < 8 {
      AfLowCodes(r, pin, af, other);
    } else if 8 <= pin && 8 <= other {
      AfHighCodes(r, pin, af, other);
    }
  }

  /** Two pins of AFRL: writing one slot leaves the other's code. */
  lemma AfLowCodes(r: Mock.PortRegs, pin: bv8, af: PinAf, other: bv8)
    requires pin < 8 && other < 8 && other != pin
    ensures AfCodeOfPin(WithAf(r, pin, af), other) == AfCodeOfPin(r, other)
  {
    AfSlotOther(r.afrl, pin, af, other);
  }

  /** Two pins of AFRH: writing one slot leaves the other's code. */
  lemma AfHighCodes(r: Mock.PortRegs, pin: bv8, af: PinAf, other: bv8)
    requires 8 <= pin < 16 && 8 <= other < 16 && other != pin
    ensures AfCodeOfPin(WithAf(r, pin, af), other) == AfCodeOfPin(r, other)
  {
    AfSlotOther(r.afrh, pin - 8, af, other - 8);
  }

  /**
   * `set_alternate_function` on one pin leaves the alternate function of
   * every other pin as it was, in the same register or the other one.
   */
  lemma AfOtherPins(r: Mock.PortRegs, pin: bv8, af: PinAf, other: bv8)
    requires pin < 16 && other < 16 && other != pin
    ensures AfOfPin(WithAf(r, pin, af), other) == AfOfPin(r, other)
  {
    AfOtherCodes(r, pin, af, other);
    AfSameCode(WithAf(r, pin, af), r, other);
  }

  /** Setting a pin's mode twice leaves the second mode: the last call wins. */
  lemma ModeLastWins(r: Mock.PortRegs, pin: bv8, first: PinMode, second: PinMode)
    requires pin < 16
    ensures WithMode(WithMode(r, pin, first), pin, second) == WithMode(r, pin, second)
  {
    SlotFits(pin, 2);
    Hal.WriteAtLastWins(r.moder, Slot(pin, 2), 2, ModeBits(first) as bv32, ModeBits(second) as bv32);
  }

  /** Setting a pin's output type twice leaves the second type. */
  lemma TypeLastWins(r: Mock.PortRegs, pin: bv8, first: PinType, second: PinType)
    requires pin < 32
    ensures WithType(WithType(r, pin, first), pin, second) == WithType(r, pin, second)
  {
    SlotFits(pin, 1);
    Hal.WriteAtLastWins(r.otyper, Slot(pin, 1), 1, TypeBits(first) as bv32, TypeBits(second) as bv32);
  }

  /** Setting a pin's speed twice leaves the second speed. */
  lemma SpeedLastWins(r: Mock.PortRegs, pin: bv8, first: PinSpeed, second: PinSpeed)
    requires pin < 16
    ensures WithSpeed(WithSpeed(r, pin, first), pin, second) == WithSpeed(r, pin, second)
  {
    SlotFits(pin, 2);
    Hal.WriteAtLastWins(r.ospeedr, Slot(pin, 2), 2, SpeedBits(first) as bv32, SpeedBits(second) as bv32);
  }

  /** Setting a pin's pull setting twice leaves the second one. */
  lemma PupdLastWins(r: Mock.PortRegs, pin: bv8, first: PinPupd, second: PinPupd)
    requires pin < 16
    ensures WithPupd(WithPupd(r, pin, first), pin, second) == WithPupd(r, pin, second)
  {
    SlotFits(pin, 2);
    Hal.WriteAtLastWins(r.pupdr, Slot(pin, 2), 2, PupdBits(first) as bv32, PupdBits(second) as bv32);
  }

  /** Setting a pin's alternate function twice leaves the second one. */
  lemma AfLastWins(r: Mock.PortRegs, pin: bv8, first: PinAf, second: PinAf)
    requires pin < 16
    ensures WithAf(WithAf(r, pin, first), pin, second) == WithAf(r, pin, second)
  {
    SlotFits(AfSlot(pin), 4);
    Hal.WriteAtLastWins(AfRegister(r, pin), Slot(AfSlot(pin), 4), 4, AfBits(first) as bv32, AfBits(second) as bv32);
  }

  // ---------------------------------------------------------------------------
  // Port clocks
  // ---------------------------------------------------------------------------

  /** The port's enable bit of RCC AHB2ENR. */
  function ClockBit(port: Port): bv32
  {
    (1 as bv32) << (ClockPosition(port) as bv32)
  }

  /** AHB2ENR value `enr` has the port's clock enabled. */
  predicate ClockOn(enr: bv32, port: Port)
  {
    enr & ClockBit(port) != 0
  }

  /** `update_port_clock`: sets (enable) or clears (disable) the port's bit of AHB2ENR. */
  method UpdatePortClock(chip: Mock.Chip, port: Port, enablePort: bool)
    modifies chip.rcc
    ensures chip.rcc.AHB2ENR == if enablePort then Hal.Ored(old(chip.rcc.AHB2ENR), ClockBit(port))
                                else Hal.Cleared(old(chip.rcc.AHB2ENR), ClockBit(port))
  {
    var registerPosition := ClockPosition(port);
    if enablePort {
      chip.rcc.AHB2ENR := Hal.Ored(chip.rcc.AHB2ENR, (1 as bv32) << (registerPosition as bv32));
    } else {
      chip.rcc.AHB2ENR := Hal.Cleared(chip.rcc.AHB2ENR, (1 as bv32) << (registerPosition as bv32));
    }
  }

  /** `enable_port_clock`: `update_port_clock` with enable set. */
  method EnablePortClock(chip: Mock.Chip, port: Port)
    modifies chip.rcc
    ensures chip.rcc.AHB2ENR == Hal.Ored(old(chip.rcc.AHB2ENR), ClockBit(port))
  {
    UpdatePortClock(chip, port, true);
  }

  /** `disable_port_clock`: `update_port_clock` with enable clear. */
  method DisablePortClock(chip: Mock.Chip, port: Port)
    modifies chip.rcc
    ensures chip.rcc.AHB2ENR == Hal.Cleared(old(chip.rcc.AHB2ENR), ClockBit(port))
  {
    UpdatePortClock(chip, port, false);
  }

  /** Enabling a port's clock turns it on and leaves every other port's clock as it was. */
  lemma EnableClockEffect(enr: bv32, port: Port, other: Port)
    ensures ClockOn(Hal.Ored(enr, ClockBit(port)), other) == (other == port || ClockOn(enr, other))
  {
    if other != port {
      PortsDistinctBits(port, other);
    }
  }

  /** Disabling a port's clock turns it off and leaves every other port's clock as it was. */
  lemma DisableClockEffect(enr: bv32, port: Port, other: Port)
    ensures ClockOn(Hal.Cleared(enr, ClockBit(port)), other) == (other != port && ClockOn(enr, other))
  {
    if other != port {
      PortsDistinctBits(port, other);
      assert Hal.Cleared(enr, ClockBit(port)) & ClockBit(other) == enr & ClockBit(other);
    }
  }

  /** Distinct ports have disjoint clock-enable bits. */
  lemma PortsDistinctBits(p: Port, q: Port)
    requires p != q
    ensures Hal.Disjoint(ClockBit(p), ClockBit(q))
  {
  }

  // ---------------------------------------------------------------------------
  // Pin level
  // ---------------------------------------------------------------------------

  /** `read`: 1 when IDR bit `pin` is set and 0 otherwise; nothing changes. */
  function Read(chip: Mock.Chip, port: Port, pin: bv8): (level: bv8)
    requires chip.Valid() && pin < 32
    reads PortRegister(chip, port)
    ensures level <= 1
    ensures level as bv32 == Hal.ReadAt(PortRegister(chip, port).IDR, Slot(pin, 1), 1)
  {
    if PortRegister(chip, port).IDR & ((1 as bv32) << (pin as bv32)) != 0 then 1 else 0
  }

  /** The registers after `set(bit)`: BSRR holds bit `bit` alone, overwriting whatever it held. */
  function WithBsrr(r: Mock.PortRegs, bit: bv8): Mock.PortRegs
    requires bit < 32
  {
    r.(bsrr := (1 as bv32) << (bit as bv32))
  }

  /** `set`: stores BSRR with bit `pin` alone set; a plain store, not a read-modify-write. */
  method Set(chip: Mock.Chip, port: Port, pin: bv8)
    requires chip.Valid() && pin < 32
    modifies PortRegister(chip, port)
    ensures PortRegister(chip, port).Regs() == WithBsrr(old(PortRegister(chip, port).Regs()), pin)
  {
    var prt := PortRegister(chip, port);
    prt.BSRR := (1 as bv32) << (pin as bv32);
  }

  /** `clear`: `set` of bit `pin + 16`, the reset half of BSRR. */
  method Clear(chip: Mock.Chip, port: Port, pin: bv8)
    requires chip.Valid() && pin < 16
    modifies PortRegister(chip, port)
    ensures PortRegister(chip, port).Regs() == WithBsrr(old(PortRegister(chip, port).Regs()), pin + 16)
  {
    Set(chip, port, pin + 16);
  }

  /**
   * `set` followed by the mock's BSRR pass drives ODR bit `pin` high and
   * no other ODR bit changes; BSRR is consumed.
   */
  lemma SetThenUpdate(r: Mock.PortRegs, pin: bv8)
    requires pin < 16
    ensures Mock.Updated(WithBsrr(r, pin)) == r.(odr := Hal.Ored(r.odr, (1 as bv32) << (pin as bv32)), bsrr := 0)
  {
  }

  /**
   * `clear` followed by the mock's BSRR pass drives ODR bit `pin` low and
   * no other ODR bit changes; BSRR is consumed.
   */
  lemma ClearThenUpdate(r: Mock.PortRegs, pin: bv8)
    requires pin < 16
    ensures Mock.Updated(WithBsrr(r, pin + 16)) == r.(odr := Hal.Cleared(r.odr, (1 as bv32) << (pin as bv32)), bsrr := 0)
  {
  }
}
