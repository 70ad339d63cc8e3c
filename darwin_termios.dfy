/**
  The part of golang.org/x/sys/unix (Darwin) that the serial configurator uses:
  the termios record and the flag, index and speed constants, with their Darwin values.

  A 64-bit flag word is modelled as the set of positions of its 1-bits, so Go's
  `w |= m` is `w + m`, `w &^= m` is `w - m` and `w & m` is `w * m`. Each constant
  below lists its hexadecimal value beside the bit positions.
 */
module DarwinTermios {

  /** Go's `byte`. */
  type Byte = b: int | 0 <= b < 256

  /** A `tcflag_t` word: the positions of its 1-bits. */
  type Flags = set<nat>

  // Input-mode flags (c_iflag).
  const BRKINT: Flags := {1}    // 0x2
  const PARMRK: Flags := {3}    // 0x8
  const INPCK: Flags := {4}     // 0x10
  const ISTRIP: Flags := {5}    // 0x20
  const ICRNL: Flags := {8}     // 0x100
  const IXON: Flags := {9}      // 0x200
  const IXOFF: Flags := {10}    // 0x400

  // Control-mode flags (c_cflag).
  const CSIZE: Flags := {8, 9}  // 0x300
  const CS5: Flags := {}        // 0x0
  const CS6: Flags := {8}       // 0x100
  const CS7: Flags := {9}       // 0x200
  const CS8: Flags := {8, 9}    // 0x300
  const CSTOPB: Flags := {10}   // 0x400
  const CREAD: Flags := {11}    // 0x800
  const PARENB: Flags := {12}   // 0x1000
  const PARODD: Flags := {13}   // 0x2000
  const CLOCAL: Flags := {15}   // 0x8000

  // Local-mode flags (c_lflag).
  const ECHOE: Flags := {1}     // 0x2
  const ECHO: Flags := {3}      // 0x8
  const ISIG: Flags := {7}      // 0x80
  const ICANON: Flags := {8}    // 0x100

  // Output-mode flags (c_oflag).
  const OPOST: Flags := {0}     // 0x1

  // The control-character array.
  const NCCS: nat := 20
  const VMIN: nat := 16
  const VTIME: nat := 17

  // Speed constants: on Darwin each one is the rate itself.
  const B50: nat := 50
  const B75: nat := 75
  const B110: nat := 110
  const B134: nat := 134
  const B150: nat := 150
  const B200: nat := 200
  const B300: nat := 300
  const B600: nat := 600
  const B1200: nat := 1200
  const B2400: nat := 2400
  const B4800: nat := 4800
  const B9600: nat := 9600
  const B19200: nat := 19200
  const B38400: nat := 38400
  const B57600: nat := 57600
  const B115200: nat := 115200
  const B230400: nat := 230400

  /** The fixed-size `Cc [NCCS]uint8` array of the record. */
  type CcArray = s: seq<bv8> | |s| == NCCS witness seq(NCCS, _ => 0)

  /** Darwin's `unix.Termios`: four flag words, the control characters and two speeds. */
  datatype Termios = Termios(
    iflag: Flags,
    oflag: Flags,
    cflag: Flags,
    lflag: Flags,
    cc: CcArray,
    ispeed: nat,
    ospeed: nat)
}
