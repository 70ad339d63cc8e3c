# Darwin serial-port configuration, modelled in Dafny

This project models the Darwin backend of the Go package `crgimenes/serial`
(`serial_darwin.go`). The backend does three things:

- It resolves a baud rate to a speed constant (`getBaudRate`).
- It turns the caller's data bits, parity and stop bits, together with the
  VMIN/VTIME pair of the read timeout, into a raw-mode terminal attribute record
  (the termios structure of `golang.org/x/sys/unix`). If a setting is invalid, it
  returns one of three validation errors instead.
- It opens, configures and closes the device (`openPort`, `isTTY`, `Port.Flush`,
  `Port.Close`).

The project has four files:

- `wrappers.dfy`: the `Option` and `Result` types.
- `darwin_termios.dfy`: the termios record and the Darwin constants it uses.
- `serial_config.dfy`: the baud-rate lookup, the validation and the attribute
  translation, with its specification and the lemmas about it.
- `serial_port.dfy`: the file and port objects, `isTTY` and `openPort`.

## Representation

**Flag words as bit sets.** A 64-bit flag word (`tcflag_t`) is modelled as the set
of positions of its 1-bits (`Flags = set<nat>`). Go's operations map as follows:

| Go | Dafny |
|---|---|
| `w \|= m` | `w + m` |
| `w &^= m` and `w &= ^m` | `w - m` |
| `w & m` | `w * m` |

**Darwin constant values.** The constants take their Darwin values. The hex value
of each one is written beside it in `darwin_termios.dfy`.

| group | constants |
|---|---|
| input flags | BRKINT 0x2, PARMRK 0x8, INPCK 0x10, ISTRIP 0x20, ICRNL 0x100, IXON 0x200, IXOFF 0x400 |
| control flags | CSIZE 0x300; CS5 0, CS6 0x100, CS7 0x200, CS8 0x300; CSTOPB 0x400, CREAD 0x800, PARENB 0x1000, PARODD 0x2000, CLOCAL 0x8000 |
| local flags | ECHOE 0x2, ECHO 0x8, ISIG 0x80, ICANON 0x100 |
| output flags | OPOST 0x1 |
| control characters | NCCS 20, VMIN 16, VTIME 17 |
| speeds | each `B<rate>` equals the rate itself |

**Parity and stop-bits codes.** Parity codes are the bytes `'N'`, `'O'` and `'E'`,
and stop-bits codes are the bytes 1 and 2. Any other byte is an invalid setting, so
the `default:` branches of the switches stay reachable.

## What the code does

**The input-flags mask lands on `Cflag`.** Line 56 clears the input-mode flags
BRKINT, ICRNL, INPCK, ISTRIP, IXOFF, IXON and PARMRK, but it clears them from the
control word `Cflag`, not from `Iflag`. The model does the same:

- `Iflag` is never changed.
- On Darwin these masks overlap control bits. ICRNL and IXON fall inside CSIZE,
  which is cleared anyway. IXOFF is the same bit as CSTOPB.
- As a result, CSTOPB is always cleared before the stop-bits switch. With Stop1 the
  stop bit therefore ends clear, not "as it was".
- The other masked bits (0x2, 0x8, 0x10, 0x20) end clear in every translated record.

`ControlTranslated` states all of this group by group, and the groups cover every
bit.

**What the translation guarantees.** `ConfigureTermios` returns either the first
validation error (data bits, then parity, then stop bits) or a record that satisfies
`Translated`. The lemmas then show four things:

- The settings determine the record (`TranslatedDetermined`).
- Every setting can be read back from the record (`SettingsReadBack`).
- Translating the result again with the same settings changes nothing
  (`TranslatedIdempotent`).
- The records a translation can produce are exactly those of a fixed shape
  (`TranslatedImage`).

**Closing on failure.** `OpenPort` closes the file on the four system-call failures
after the open (not a tty, get-attributes, set-attributes, set-blocking). On the
three validation errors it returns with the descriptor still open, so those paths
leak the descriptor. Closing on every failure would be the consistent behaviour,
but the model keeps the code's behaviour and states it in `OpenPort`'s contract.

**Flush always succeeds.** `Port.Flush` returns no error whatever `Sync` reports,
even on a closed file, so a failed sync is never reported. The model follows the
code.

**Close.** Closing a file releases the descriptor even when close(2) reports an
error. A second close fails with `ErrClosed`. When `openPort` closes the file on a
failure path, it ignores whatever the close returns.

## Model

| member | source | states |
|---|---|---|
| SerialConfig.GetBaudRate | serial_darwin.go:126-152 | each of the 17 table rates maps to its own speed constant; every other integer maps to B9600; the result is always a table rate, so the lookup never fails |
| SerialConfig.GetBaudRateIdempotent | serial_darwin.go:126-152 | resolving an already resolved speed gives the same speed |
| SerialConfig.ValidationError | serial_darwin.go:64-97 | no error exactly when data bits are 5..8, parity is N/O/E and stop bits are 1/2; otherwise the first invalid field decides the error: ErrBadSize, then ErrBadParity, then ErrBadStopBits |
| SerialConfig.ClearControlFlags | serial_darwin.go:56-58 | after the three masking steps, CSIZE, PARENB, CSTOPB and the input-flag bits are clear, CLOCAL and CREAD are set, PARODD and every untouched bit are as before |
| SerialConfig.SetCharacterSize | serial_darwin.go:64-75 | data bits 5..8 set the CSIZE field to CS5..CS8 and change no other group; any other value gives ErrBadSize |
| SerialConfig.SetParity | serial_darwin.go:77-88 | Odd sets PARENB and PARODD; Even sets PARENB and clears PARODD; None leaves the word unchanged; any other code gives ErrBadParity; no other group changes |
| SerialConfig.SetStopBits | serial_darwin.go:90-97 | Stop2 sets CSTOPB; Stop1 leaves the word unchanged; any other code gives ErrBadStopBits; no other group changes |
| SerialConfig.ConfigureTermios | serial_darwin.go:56-104 | on failure, the error is the first validation error; on success, the record is the translation: same Iflag, OPOST cleared in Oflag, ICANON/ECHO/ECHOE/ISIG cleared in Lflag, Ispeed and Ospeed both equal to getBaudRate(baud), VMIN and VTIME stored with the other control characters kept, and the control word translated group by group |
| SerialConfig.CharSizeCases | serial_darwin.go:64-75 | the CSIZE field of any control word is one of CS5..CS8 |
| SerialConfig.DataBitsOf | serial_darwin.go:64-75 | decodes the CSIZE field to the data bits (5..8) whose CS constant it is |
| SerialConfig.ParityOf | serial_darwin.go:77-88 | a word with PARENB clear decodes as None; one with PARENB and PARODD set decodes as Odd; one with PARENB set and PARODD clear decodes as Even; each case holds in both directions |
| SerialConfig.StopBitsOf | serial_darwin.go:90-97 | a word decodes as Stop2 exactly when CSTOPB is set, and as Stop1 exactly when it is clear |
| SerialConfig.ControlReadBack | serial_darwin.go:56-97 | data bits, parity and stop bits can be decoded back from a translated control word |
| SerialConfig.SettingsReadBack | serial_darwin.go:56-104 | from a translated record: the settings decode back, the two speeds are equal and are the rate (or 9600 for an unknown rate), and VMIN/VTIME hold the given values |
| SerialConfig.ControlGroupsDetermined | serial_darwin.go:56-97 | two control words with the same groups are equal: the groups cover every bit |
| SerialConfig.TranslatedDetermined | serial_darwin.go:56-104 | the settings determine the translated record uniquely |
| SerialConfig.ControlIdempotent | serial_darwin.go:56-97 | a translated control word translates to itself under the same settings |
| SerialConfig.TranslatedIdempotent | serial_darwin.go:56-104 | translating a translated record again with the same settings changes nothing |
| SerialConfig.RawShapeTranslated | serial_darwin.go:56-104 | every record of the raw shape is the translation of the settings decoded from it |
| SerialConfig.TranslatedRawShape | serial_darwin.go:56-104 | every translated record has the raw shape |
| SerialConfig.TranslatedImage | serial_darwin.go:56-104 | a record has the raw shape exactly when some settings translate the device record into it |
| SerialPort.File.Open | serial_darwin.go:37 | a newly opened file is open and non-blocking (O_NONBLOCK) and carries the device's attributes |
| SerialPort.File.GetTermios | serial_darwin.go:49-54 | returns the device's attributes, or the call's error, or ErrClosed on a closed file |
| SerialPort.File.SetTermios | serial_darwin.go:106-110 | commits the attributes only when the call succeeds; nothing else changes |
| SerialPort.File.SetNonblock | serial_darwin.go:112-116 | changes the blocking mode only when the call succeeds; nothing else changes |
| SerialPort.File.Sync | serial_darwin.go:26 | reports the sync outcome, or ErrClosed on a closed file |
| SerialPort.File.Close | serial_darwin.go:31 | the file ends closed; reports close(2)'s outcome, or ErrClosed when it was already closed |
| SerialPort.IsTty | serial_darwin.go:121-124 | true exactly when the attribute probe succeeds on an open file |
| SerialPort.Port.constructor | serial_darwin.go:118 | the port wraps the given file |
| SerialPort.Port.Flush | serial_darwin.go:25-28 | always reports no error, whatever Sync did |
| SerialPort.Port.Close | serial_darwin.go:30-32 | the file ends closed with its blocking mode and attributes unchanged; reports what closing the file reported |
| SerialPort.OpenPort | serial_darwin.go:34-119 | success exactly when every system call succeeds and the settings are valid; an open failure leaves nothing open; not-a-tty, get-attributes and set-attributes failures close the file with the attributes untouched; validation errors return the first validation error with the file left open, non-blocking and untouched; a set-blocking failure closes the file after the translated attributes were committed; on success the port holds the open, blocking file with the translated attributes |

## Left out

- Port.Read and Port.Write (serial_darwin.go:17-23) pass straight through to the
  file, and their behaviour lives in the kernel.
- `posixTimeoutValues` is not part of this model. The two values it computes from the
  read timeout are inputs (`vmin`, `vtime`), stored verbatim into `Cc[VMIN]` and
  `Cc[VTIME]`.
- The declarations of `Parity`, `StopBits`, `ErrBadSize`, `ErrBadParity` and
  `ErrBadStopBits` come from a file that is not part of this model. Parity and
  stop-bits codes are bytes here, and the errors are constructors of `Error`.
- System calls:
  - `os.OpenFile`, `unix.IoctlGetTermios`, `unix.IoctlSetTermios`,
    `unix.SetNonblock`, `File.Sync` and `File.Close` are modelled by their outcomes
    only. The outcomes are inputs: the `Syscalls` record, or one `Option` per call.
  - The descriptor's open/closed state, its blocking mode and the device attributes
    are the only effects modelled.
  - `isTTY`'s probe and the following attribute fetch are the same ioctl, but the
    model gives them independent outcomes.
- Logging (serial_darwin.go:35, 39, 52, 107, 113) has no effect on the result.
- The 64-bit width of the flag words is not represented. Every constant uses bit
  positions below 16, and set union, difference and intersection behave like the
  bitwise operations at any width.
- The repository's example read program only parses flags and loops reading; it
  has no logic of its own.
