/*
 * The enumerations of the GPIO driver interface (class GPIO_Class): the
 * settings a pin can be given, with the register encoding each enumerator
 * stands for (as cast to `uint8_t` by the driver), and the seven ports.
 * Each encoding comes with the decoding that reads a register field back.
 */
module GpioTypes {

  datatype Option<T> = None | Some(value: T)

  /** Pin_Mode: the 2-bit MODER field. */
  datatype PinMode = Input | Output | Alternate | Analog

  /** Pin_Type: the 1-bit OTYPER field. */
  datatype PinType = PushPull | OpenDrain

  /** Pin_Speed: the 2-bit OSPEEDR field. */
  datatype PinSpeed = VeryLowSpeed | LowSpeed | HighSpeed | VeryHighSpeed

  /** Pin_PUPD: the 2-bit PUPDR field; the fourth code has no enumerator. */
  datatype PinPupd = NoPullUpDown | PullUp | PullDown

  /** Pin_AF: the 4-bit AFRL/AFRH field, AFn standing for n. */
  datatype PinAf =
    | AF0 | AF1 | AF2 | AF3 | AF4 | AF5 | AF6 | AF7
    | AF8 | AF9 | AF10 | AF11 | AF12 | AF13 | AF14 | AF15

  /** Ports: the seven GPIO ports, each standing for its letter. */
  datatype Port = PortA | PortB | PortC | PortD | PortE | PortF | PortG

  function ModeBits(mode: PinMode): (b: bv8)
    ensures b <= 3
  {
    match mode
    case Input => 0
    case Output => 1
    case Alternate => 2
    case Analog => 3
  }

  /** The mode a 2-bit MODER field stands for; every code is a mode. */
  function ModeOf(b: bv8): (m: Option<PinMode>)
    ensures m.Some? <==> b <= 3
  {
    if b == 0 then Some(Input)
    else if b == 1 then Some(Output)
    else if b == 2 then Some(Alternate)
    else if b == 3 then Some(Analog)
    else None
  }

  /** Decoding undoes encoding, and a code that decodes is the encoding of its mode. */
  lemma ModeRoundTrip(mode: PinMode, b: bv8)
    ensures ModeOf(ModeBits(mode)) == Some(mode)
    ensures ModeOf(b) == Some(mode) ==> ModeBits(mode) == b
  {
  }

  function TypeBits(t: PinType): (b: bv8)
    ensures b <= 1
  {
    match t
    case PushPull => 0
    case OpenDrain => 1
  }

  /** The output type a 1-bit OTYPER field stands for. */
  function TypeOf(b: bv8): (t: Option<PinType>)
    ensures t.Some? <==> b <= 1
  {
    if b == 0 then Some(PushPull)
    else if b == 1 then Some(OpenDrain)
    else None
  }

  lemma TypeRoundTrip(t: PinType, b: bv8)
    ensures TypeOf(TypeBits(t)) == Some(t)
    ensures TypeOf(b) == Some(t) ==> TypeBits(t) == b
  {
  }

  function SpeedBits(speed: PinSpeed): (b: bv8)
    ensures b <= 3
  {
    match speed
    case VeryLowSpeed => 0
    case LowSpeed => 1
    case HighSpeed => 2
    case VeryHighSpeed => 3
  }

  /** The speed grade a 2-bit OSPEEDR field stands for; every code is a grade. */
  function SpeedOf(b: bv8): (s: Option<PinSpeed>)
    ensures s.Some? <==> b <= 3
  {
    if b == 0 then Some(VeryLowSpeed)
    else if b == 1 then Some(LowSpeed)
    else if b == 2 then Some(HighSpeed)
    else if b == 3 then Some(VeryHighSpeed)
    else None
  }

  lemma SpeedRoundTrip(speed: PinSpeed, b: bv8)
    ensures SpeedOf(SpeedBits(speed)) == Some(speed)
    ensures SpeedOf(b) == Some(speed) ==> SpeedBits(speed) == b
  {
  }

  /** The pull code of a setting: 0, 1 or 2, never 3. */
  function PupdBits(pupd: PinPupd): (b: bv8)
    ensures b < 3
  {
    match pupd
    case NoPullUpDown => 0
    case PullUp => 1
    case PullDown => 2
  }

  /** The pull setting a 2-bit PUPDR field stands for; code 3 stands for none. */
  function PupdOf(b: bv8): (p: Option<PinPupd>)
    ensures p.Some? <==> b < 3
  {
    if b == 0 then Some(NoPullUpDown)
    else if b == 1 then Some(PullUp)
    else if b == 2 then Some(PullDown)
    else None
  }

  lemma PupdRoundTrip(pupd: PinPupd, b: bv8)
    ensures PupdOf(PupdBits(pupd)) == Some(pupd)
    ensures PupdOf(b) == Some(pupd) ==> PupdBits(pupd) == b
  {
  }

  /** The alternate-function number n of AFn. */
  function AfBits(af: PinAf): (b: bv8)
    ensures b <= 15
  {
    match af
    case AF0 => 0 case AF1 => 1 case AF2 => 2 case AF3 => 3
    case AF4 => 4 case AF5 => 5 case AF6 => 6 case AF7 => 7
    case AF8 => 8 case AF9 => 9 case AF10 => 10 case AF11 => 11
    case AF12 => 12 case AF13 => 13 case AF14 => 14 case AF15 => 15
  }

  /** The alternate function a 4-bit AFR field stands for; every code is one. */
  function AfOf(b: bv8): (af: Option<PinAf>)
    ensures af.Some? <==> b <= 15
  {
    if b == 0 then Some(AF0) else if b == 1 then Some(AF1)
    else if b == 2 then Some(AF2) else if b == 3 then Some(AF3)
    else if b == 4 then Some(AF4) else if b == 5 then Some(AF5)
    else if b == 6 then Some(AF6) else if b == 7 then Some(AF7)
    else if b == 8 then Some(AF8) else if b == 9 then Some(AF9)
    else if b == 10 then Some(AF10) else if b == 11 then Some(AF11)
    else if b == 12 then Some(AF12) else if b == 13 then Some(AF13)
    else if b == 14 then Some(AF14) else if b == 15 then Some(AF15)
    else None
  }

  lemma AfRoundTrip(af: PinAf, b: bv8)
    ensures AfOf(AfBits(af)) == Some(af)
    ensures AfOf(b) == Some(af) ==> AfBits(af) == b
  {
  }

  /** The letter a port stands for, 'A' .. 'G'. */
  function Letter(port: Port): (c: char)
    ensures 'A' <= c <= 'G'
  {
    match port
    case PortA => 'A'
    case PortB => 'B'
    case PortC => 'C'
    case PortD => 'D'
    case PortE => 'E'
    case PortF => 'F'
    case PortG => 'G'
  }

  /** The port a letter stands for; only 'A' .. 'G' name one. */
  function PortOf(c: char): (p: Option<Port>)
    ensures p.Some? <==> 'A' <= c <= 'G'
  {
    if c == 'A' then Some(PortA)
    else if c == 'B' then Some(PortB)
    else if c == 'C' then Some(PortC)
    else if c == 'D' then Some(PortD)
    else if c == 'E' then Some(PortE)
    else if c == 'F' then Some(PortF)
    else if c == 'G' then Some(PortG)
    else None
  }

  /** Letters and ports correspond one to one, so the seven ports are distinct values. */
  lemma LetterRoundTrip(port: Port, c: char)
    ensures PortOf(Letter(port)) == Some(port)
    ensures PortOf(c) == Some(port) ==> Letter(port) == c
  {
  }

  /** Distinct ports stand for distinct letters. */
  lemma LettersDistinct(p: Port, q: Port)
    requires p != q
    ensures Letter(p) != Letter(q)
  {
    LetterRoundTrip(p, Letter(q));
  }
}
