# STM32G491 register HAL, GPIO driver and mock register bank, in Dafny

This project models three layers of an STM32G4 embedded-support library. All three do bit
manipulation on 32-bit memory-mapped registers.

- **Register field primitive** (`Chip::HAL`, module `Hal`, file `hal.dfy`). It reads a whole
  register, ORs bits into it and clears bits from it. It also reads, sets and clears a field.
  A field is addressed by a slot number `position` and a `width`, and its bit offset is
  `position * width`. A register is a `Register` object with one `bv32` field that the
  set/clear methods update in place. The pure readings are functions over `bv32` values:
  `ReadAt`, `SetAt`, `ClearAt`, and `WriteAt` (clear-then-OR).
- **GPIO driver** (`GPIO_Class`, modules `GpioTypes` and `Gpio`, files `gpio_types.dfy` and
  `gpio.dfy`).
  - `GpioTypes` holds the enumerations `Pin_Mode`, `Pin_Type`, `Pin_Speed`, `Pin_PUPD`,
    `Pin_AF` and `Ports`. Each comes with its register encoding and the decoding that reads a
    field back.
  - `Gpio` models the five per-pin setters. Each clears the pin's slot of MODER, OTYPER,
    OSPEEDR, PUPDR or AFR[0]/AFR[1] and then ORs the new code in.
  - It also models the port-clock gate in RCC AHB2ENR (one bit per port, A = 0 .. G = 6),
    `read` of an IDR bit, and `set`/`clear`. These two store a single bit into BSRR.
  - The driver reaches the port records GPIOA .. GPIOG and the RCC record through the mock's
    globals. The model passes these in as a `Mock.Chip`.
- **Mock register bank** (module `Mock`, file `mock.dfy`).
  - Seven `GpioPort` records hold the `GPIO_TypeDef` registers, together with an `Rcc` record
    holding AHB2ENR.
  - `update_GPIO_BSRR` pushes each port's BSRR into its ODR, one bit per step, and consumes
    BSRR. It is modelled as a method with nested loops and loop invariants.
  - `port2int` maps a port record to its index.

The spec functions have no contracts of their own. Their properties are stated as lemmas, and
each method's `ensures` ties the new register state to them:

| function | what it is | source |
|---|---|---|
| `Hal.Bitmask(w)` | `2^w - 1`, the value assumed for table entry `bitmasks[w]` | stm32g491_hal.cc:39 |
| `Hal.Shift(p, w)` | the bit offset `p * w` of slot `p` | stm32g491_hal.cc:37 |
| `Hal.ReadAt`, `Hal.SetAt`, `Hal.ClearAt` | the values `read_field`, `set_field` and `clear_field` produce | |
| `Hal.WriteAt` | clear-then-OR, as the GPIO setters do it | |
| `Mock.AppliedOdr` | ODR after one pass of the mock's BSRR loop | |
| `Mock.Updated` | a port's record after one pass of the mock's BSRR loop | |
| `Mock.Scan` | the inner BSRR loop read as a recursion over the bit position: `SetLine` or `ResetLine` at each set bit, then the next position with the copy shifted right. `ApplyBsrr` is proved to follow it step by step, and `ScanIsUpdate` proves it equal to the closed form `Updated` | stm32g491_mock.cc:36-50 |
| `Gpio.WithMode`, `WithType`, `WithSpeed`, `WithPupd`, `WithAf` | the port record after each setter | |
| `Gpio.ModeOfPin`, `TypeOfPin`, `SpeedOfPin`, `PupdOfPin`, `AfOfPin` | what a pin's slot reads back as | |
| `Gpio.WithBsrr` | the port record after `set` of one BSRR bit | |
| `Gpio.ClockBit`, `Gpio.ClockOn` | a port's enable bit in AHB2ENR, and whether it is on | |

## Model

| member | source | states |
|---|---|---|
| Hal.ReadRegister | src/lib/chip/stm32g491/stm32g491_hal.cc:16-19 | returns the register's current value and changes nothing |
| Hal.SetRegister | src/lib/chip/stm32g491/stm32g491_hal.cc:22-25 | the register becomes `old` OR `val`: every bit of `val` is set and every other bit is kept |
| Hal.ClearRegister | src/lib/chip/stm32g491/stm32g491_hal.cc:28-31 | the register becomes `old & ~val`: every bit of `val` is cleared and every other bit is kept |
| Hal.ReadField | src/lib/chip/stm32g491/stm32g491_hal.cc:34-41 | reads the register once and returns the field at offset `position * width`, masked by the table entry for `width`; nothing changes |
| Hal.SetField | src/lib/chip/stm32g491/stm32g491_hal.cc:44-47 | ORs `val << position*width` into the register, without clearing the field first |
| Hal.ClearField | src/lib/chip/stm32g491/stm32g491_hal.cc:50-54 | clears exactly the field's bits (table mask shifted to the slot's offset) and keeps every other bit |
| Hal.ReadAtBound | src/lib/chip/stm32g491/stm32g491_hal.cc:39-40 | a field read is never larger than its mask `2^width - 1` |
| Hal.ReadAtReference | src/lib/chip/stm32g491/stm32g491_hal.cc:34-41 | when the field fits in the register, `read_field` equals the register shifted down by the offset and masked to `width` bits |
| Hal.ClearAtReadsZero | src/lib/chip/stm32g491/stm32g491_hal.cc:50-54 | after `clear_field` the field reads 0, and no bit outside the field changes |
| Hal.SetAtOrs | src/lib/chip/stm32g491/stm32g491_hal.cc:44-47 | for a value that fits the field, `set_field` makes the field's bits the old field bits OR `val` and changes no bit outside the field |
| Hal.ClearThenSetField | src/lib/chip/stm32g491/test/utest_stm32g491_hal.cc:36-43 | for a slot inside the register and a value of at most `width` bits, `clear_field` makes the slot read 0, and `set_field` after it makes the slot read the value |
| Hal.WriteAtReadBack | src/lib/peripherals/gpio/gpio.cc:24-25 | clear-then-OR of a value that fits reads back exactly that value |
| Hal.WriteAtFrame | src/lib/peripherals/gpio/gpio.cc:24-25 | clear-then-OR changes no bit outside the field |
| Hal.WriteAtOtherField | src/lib/peripherals/gpio/gpio.cc:24-25 | clear-then-OR of one field leaves every disjoint field reading what it read before |
| Hal.WriteAtLastWins | src/lib/peripherals/gpio/gpio.cc:24-25 | two clear-then-OR writes of one field give what the second write alone gives, so the last write wins and a repeated write is idempotent |
| Mock.GpioPort.ScanBit | src/lib/chip/stm32g491/stm32g491_mock.cc:37-50 | one step of the inner loop: a set bit j < 16 sets ODR bit j, a reset bit j >= 16 clears ODR bit j - 16, the bit is cleared from BSRR, and the local copy of BSRR shifts right by one; the step is exactly one unfolding of `Scan` |
| Mock.ScanFrom | src/lib/chip/stm32g491/stm32g491_mock.cc:36-50 | from any loop state reached after j positions, scanning the remaining positions j..31 bit by bit ends with ODR at the whole-register value `AppliedOdr` and BSRR at 0; proved by induction on the positions left |
| Mock.ScanIsUpdate | src/lib/chip/stm32g491/stm32g491_mock.cc:35-51 | the bit-by-bit loop, started at position 0 with the copy equal to BSRR, has exactly the effect `Updated`: the closed form and the loop agree on every register value |
| Mock.GpioPort.ApplyBsrr | src/lib/chip/stm32g491/stm32g491_mock.cc:35-51 | the 32-step inner loop leaves the port's registers equal to `Updated(old)`: ODR gets BSRR's set bits, then loses its reset bits; BSRR ends 0; no other register changes; and the loop, iteration by iteration, follows the recursion `Scan` started at position 0 |
| Mock.Chip.UpdateGpioBsrr | src/lib/chip/stm32g491/stm32g491_mock.cc:31-53 | every port of the bank ends as `Updated` of its own old registers, so one port's BSRR never reaches another port |
| Mock.Chip.Port2Int | src/lib/chip/stm32g491/stm32g491_mock.cc:57-76 | always a value below 7 (an unknown record falls to 0), and for a record of the bank exactly its index |
| Mock.Chip.constructor | src/lib/chip/stm32g491/stm32g491_mock.cc:19-27 | seven distinct, fresh, zeroed port records and a zeroed RCC record |
| Mock.SetBitDrivesHigh | src/lib/chip/stm32g491/stm32g491_mock.cc:37-42 | for j < 16, a set bit j without reset bit j + 16 leaves ODR bit j at 1 |
| Mock.ResetBitDrivesLow | src/lib/chip/stm32g491/stm32g491_mock.cc:43-48 | for j < 16, reset bit j + 16 leaves ODR bit j at 0 whatever set bit j says, because reset bits are scanned later |
| Mock.UntouchedBitKept | src/lib/chip/stm32g491/stm32g491_mock.cc:36-50 | with neither bit j nor bit j + 16 set, ODR bit j keeps its value |
| Mock.HighOdrKept | src/lib/chip/stm32g491/stm32g491_mock.cc:36-50 | ODR bits 16-31 never change |
| Mock.UpdateIdempotent | src/lib/chip/stm32g491/stm32g491_mock.cc:34-51 | a second pass right after the first changes nothing, because BSRR is already 0 |
| GpioTypes.ModeBits | src/lib/peripherals/gpio/gpio.hh:22-28 | a mode's code fits the 2-bit MODER field |
| GpioTypes.ModeOf | src/lib/peripherals/gpio/gpio.hh:22-28 | every 2-bit code decodes to a mode, and no wider code does |
| GpioTypes.ModeRoundTrip | src/lib/peripherals/gpio/gpio.hh:22-28 | decoding undoes encoding, and a code decodes to a mode only if it is that mode's code |
| GpioTypes.TypeBits | src/lib/peripherals/gpio/gpio.hh:30-34 | an output type's code fits the 1-bit OTYPER field |
| GpioTypes.TypeOf | src/lib/peripherals/gpio/gpio.hh:30-34 | codes 0 and 1 decode to a type, and no other code does |
| GpioTypes.TypeRoundTrip | src/lib/peripherals/gpio/gpio.hh:30-34 | decoding undoes encoding in both directions |
| GpioTypes.SpeedBits | src/lib/peripherals/gpio/gpio.hh:36-42 | a speed's code fits the 2-bit OSPEEDR field |
| GpioTypes.SpeedOf | src/lib/peripherals/gpio/gpio.hh:36-42 | every 2-bit code decodes to a speed grade, and no wider code does |
| GpioTypes.SpeedRoundTrip | src/lib/peripherals/gpio/gpio.hh:36-42 | decoding undoes encoding in both directions |
| GpioTypes.PupdBits | src/lib/peripherals/gpio/gpio.hh:44-49 | a pull setting's code is 0, 1 or 2, never 3 |
| GpioTypes.PupdOf | src/lib/peripherals/gpio/gpio.hh:44-49 | codes 0-2 decode to a pull setting; code 3 and wider codes decode to none |
| GpioTypes.PupdRoundTrip | src/lib/peripherals/gpio/gpio.hh:44-49 | decoding undoes encoding in both directions |
| GpioTypes.AfBits | src/lib/peripherals/gpio/gpio.hh:51-69 | AFn's code is n, which fits the 4-bit AFR field |
| GpioTypes.AfOf | src/lib/peripherals/gpio/gpio.hh:51-69 | every 4-bit code decodes to an alternate function, and no wider code does |
| GpioTypes.AfRoundTrip | src/lib/peripherals/gpio/gpio.hh:51-69 | decoding undoes encoding in both directions |
| GpioTypes.Letter | src/lib/peripherals/gpio/gpio.hh:71-80 | every port stands for a letter 'A'..'G' |
| GpioTypes.PortOf | src/lib/peripherals/gpio/gpio.hh:71-80 | exactly the letters 'A'..'G' name a port |
| GpioTypes.LetterRoundTrip | src/lib/peripherals/gpio/gpio.hh:71-80 | letters and ports correspond one to one |
| GpioTypes.LettersDistinct | src/lib/peripherals/gpio/gpio.hh:71-80 | the seven ports are distinct values, with distinct letters |
| Gpio.PortRegister | src/lib/peripherals/gpio/gpio.cc:111-129 | each port's register record is one of the bank's records |
| Gpio.ClockPosition | src/lib/peripherals/gpio/gpio.cc:136-158 | a port's clock-enable bit position is below 7 |
| Gpio.PortNumberingsAgree | src/lib/peripherals/gpio/gpio.cc:136-158 | `port2int` of the record `port_enum2Register` returns is the port's clock-enable bit position |
| Gpio.PortsDistinct | src/lib/peripherals/gpio/gpio.cc:111-129 | distinct ports have distinct register records and distinct clock bits |
| Gpio.SetMode | src/lib/peripherals/gpio/gpio.cc:20-26 | changes only the port's record, and in it only MODER, which becomes clear-then-OR of the mode's code into slot `pin` |
| Gpio.SetOtype | src/lib/peripherals/gpio/gpio.cc:29-35 | changes only OTYPER of the port, which becomes clear-then-OR of the type's code into bit `pin` |
| Gpio.SetOspeed | src/lib/peripherals/gpio/gpio.cc:38-44 | changes only OSPEEDR of the port, which becomes clear-then-OR of the speed's code into slot `pin` |
| Gpio.SetPullupPulldown | src/lib/peripherals/gpio/gpio.cc:47-53 | changes only PUPDR of the port, which becomes clear-then-OR of the pull code into slot `pin` |
| Gpio.SetAlternateFunction | src/lib/peripherals/gpio/gpio.cc:56-67 | for pin < 8 changes only AFR[0], slot `pin`; otherwise only AFR[1], slot `pin - 8`; the other AFR word is untouched |
| Gpio.ModeReadBack | src/lib/peripherals/gpio/gpio.cc:24-25 | after `set_mode`, the pin's MODER slot reads back the mode set |
| Gpio.ModeOtherPins | src/lib/peripherals/gpio/gpio.cc:24-25 | `set_mode` leaves every other pin's mode as it was |
| Gpio.TypeReadBack | src/lib/peripherals/gpio/gpio.cc:33-34 | after `set_otype`, OTYPER bit `pin` reads back the type set |
| Gpio.TypeOtherPins | src/lib/peripherals/gpio/gpio.cc:33-34 | `set_otype` leaves every other pin's output type as it was |
| Gpio.SpeedReadBack | src/lib/peripherals/gpio/gpio.cc:42-43 | after `set_ospeed`, the pin's OSPEEDR slot reads back the speed set |
| Gpio.SpeedOtherPins | src/lib/peripherals/gpio/gpio.cc:42-43 | `set_ospeed` leaves every other pin's speed as it was |
| Gpio.PupdReadBack | src/lib/peripherals/gpio/gpio.cc:51-52 | after `set_pullup_pulldown`, the pin's PUPDR slot reads back the setting |
| Gpio.PupdOtherPins | src/lib/peripherals/gpio/gpio.cc:51-52 | `set_pullup_pulldown` leaves every other pin's pull setting as it was |
| Gpio.AfReadBack | src/lib/peripherals/gpio/gpio.cc:60-66 | after `set_alternate_function`, the pin reads back the function set, from AFRL or AFRH |
| Gpio.AfOtherPins | src/lib/peripherals/gpio/gpio.cc:60-66 | `set_alternate_function` leaves every other pin's function as it was, whether that pin is in the same AFR word or the other one |
| Gpio.ModeLastWins | src/lib/peripherals/gpio/gpio.cc:24-25 | two `set_mode` calls on one pin leave what the second alone leaves |
| Gpio.TypeLastWins | src/lib/peripherals/gpio/gpio.cc:33-34 | two `set_otype` calls on one pin leave what the second alone leaves |
| Gpio.SpeedLastWins | src/lib/peripherals/gpio/gpio.cc:42-43 | two `set_ospeed` calls on one pin leave what the second alone leaves |
| Gpio.PupdLastWins | src/lib/peripherals/gpio/gpio.cc:51-52 | two `set_pullup_pulldown` calls on one pin leave what the second alone leaves |
| Gpio.AfLastWins | src/lib/peripherals/gpio/gpio.cc:60-66 | two `set_alternate_function` calls on one pin leave what the second alone leaves |
| Gpio.UpdatePortClock | src/lib/peripherals/gpio/gpio.cc:132-165 | enable ORs the port's bit into AHB2ENR; disable clears it; nothing else changes |
| Gpio.EnablePortClock | src/lib/peripherals/gpio/gpio.cc:73-76 | ORs the port's bit into AHB2ENR |
| Gpio.DisablePortClock | src/lib/peripherals/gpio/gpio.cc:79-82 | clears the port's bit from AHB2ENR |
| Gpio.EnableClockEffect | src/lib/peripherals/gpio/gpio.cc:161 | after enabling, a port's clock is on exactly when it is the enabled port or was already on |
| Gpio.DisableClockEffect | src/lib/peripherals/gpio/gpio.cc:163 | after disabling, a port's clock is on exactly when it is another port and was already on |
| Gpio.PortsDistinctBits | src/lib/peripherals/gpio/gpio.cc:136-158 | distinct ports have disjoint AHB2ENR bits |
| Gpio.Read | src/lib/peripherals/gpio/gpio.cc:85-90 | returns 0 or 1, equal to the 1-bit field of IDR at bit `pin`; reads IDR whatever the pin's mode and changes nothing |
| Gpio.Set | src/lib/peripherals/gpio/gpio.cc:93-98 | BSRR becomes exactly `1 << pin`, overwriting what it held; every other register, ODR included, is unchanged |
| Gpio.Clear | src/lib/peripherals/gpio/gpio.cc:101-105 | BSRR becomes exactly `1 << (pin + 16)`; every other register is unchanged |
| Gpio.SetThenUpdate | src/lib/chip/stm32g491/stm32g491_mock.cc:37-42 | `set` followed by the mock's BSRR pass sets ODR bit `pin`, changes no other ODR bit, and leaves BSRR 0 |
| Gpio.ClearThenUpdate | src/lib/chip/stm32g491/stm32g491_mock.cc:43-48 | `clear` followed by the mock's BSRR pass clears ODR bit `pin`, changes no other ODR bit, and leaves BSRR 0 |

## Left out

- The table `bitmasks[]` and the function `generate_bitmask` are not part of this model. Entry `w` is
  assumed to be `2^w - 1` for `w` up to 16, which is what `Hal.Bitmask` states. Widths above 16
  are excluded by the HAL members' preconditions.
- Shifts by 32 or more are undefined in C++. The HAL members therefore require
  `position * width < 32`, and the GPIO members require `pin < 16` (`pin < 32` for `set_otype`,
  `read` and `set`, whose shift is `pin` itself).
- The C++ `int` shifts are modelled as unsigned `bv32` shifts. The model therefore does not show
  the signed overflow of the shifts that reach bit 31:
  - `1 << j` in the mock's loop at j = 31, and `1 << (pin + 16)` in `clear` of pin 15;
  - `0b11 << (pin * 2)` and `(uint8_t)code << (pin * 2)` at pin 15 (gpio.cc:24-25, 42-43, 51-52);
  - `0b1111 << (pin * 4)` and `(uint8_t)af << (pin * 4)` at slot 7 of either AFR word
    (gpio.cc:61-62, 64-65);
  - `0b1 << pin` and `(uint8_t)type << pin` at pin 31 (gpio.cc:33-34).
- `Ports` is the closed datatype `GpioTypes.Port` with exactly the seven ports. An out-of-range
  `Ports` value cannot be formed, so the model does not cover `port_enum2Register` falling off
  the end of its switch (gpio.cc:113-129), nor `update_port_clock` shifting by an uninitialised
  `register_position` (gpio.cc:135-163).
- `volatile` and hardware semantics are not modelled. This covers asynchronous IDR changes,
  hardware BSRR behaviour (the model follows the mock, where reset wins) and the atomicity of the
  read-modify-write setters against interrupts.
- Registers are plain fields. A pointer to a port record is a `Mock.GpioPort` object held in
  `Mock.Chip.ports`, and `port2int` compares object identity.
- The registers LCKR and BRR are carried in the record but never written, as in the source.
  RCC is reduced to AHB2ENR, the only register the driver uses.
- The GPIO setters' bodies are written with `Hal.ClearAt` and `Hal.SetAt`, which are the values
  of the source's `&= ~(mask << pin*w)` and `|= code << pin*w`. The mask literal
  (`0b11`, `0b1`, `0b1111`) is `Hal.Bitmask(w)` in the model.
- Mock.GpioPort.ScanBit: the body of the inner loop of `update_GPIO_BSRR` is factored into this
  method, which reads ODR and BSRR once into locals before updating them.
- `src/main.cc` and `stm32g491_chip.hh` are not part of this model; they hold start-up code and a
  namespace shell.
- The GPIO test file targets a different driver interface (`GPIO_Pin_t`, `set_pupd`,
  `set_port_clock`, a mode-dependent `read`). That interface is not part of this model.
