/**
  The line-configuration logic of the Darwin serial backend: resolving a baud rate to a
  speed constant, and translating (baud, data bits, parity, stop bits, VMIN/VTIME) into
  a raw-mode termios record or one of three validation errors.
 */
module SerialConfig {
  import opened Wrappers
  import opened DarwinTermios

  /** The errors `openPort` can return. */
  datatype Error =
    | OsError(errno: nat)   // an error passed through from the operating system
    | ErrNotTty             // "File is not a tty"
    | ErrBadSize
    | ErrBadParity
    | ErrBadStopBits
    | ErrClosed             // an operation on an already closed file

  /** Go's `Parity` and `StopBits` are byte-sized codes; any other code is invalid. */
  type Parity = Byte
  type StopBits = Byte

  const ParityNone: Parity := 'N' as int
  const ParityOdd: Parity := 'O' as int
  const ParityEven: Parity := 'E' as int

  const Stop1: StopBits := 1
  const Stop2: StopBits := 2

  // ---------------------------------------------------------------------------
  // Baud rates
  // ---------------------------------------------------------------------------

  /** The rates the backend knows. */
  const StandardRates: set<int> :=
    {50, 75, 110, 134, 150, 200, 300, 600, 1200, 2400, 4800, 9600, 19200, 38400, 57600, 115200, 230400}

  /** The lookup table of `getBaudRate`. */
  const BaudRates: map<int, nat> := map[
    50 := B50, 75 := B75, 110 := B110, 134 := B134, 150 := B150, 200 := B200,
    300 := B300, 600 := B600, 1200 := B1200, 2400 := B2400, 4800 := B4800,
    9600 := B9600, 19200 := B19200, 38400 := B38400, 57600 := B57600,
    115200 := B115200, 230400 := B230400]

  /**
    The speed constant for `baud`: a known rate gives its own constant (on Darwin the
    constant is the rate), any other rate falls back to 9600 baud. The result is always
    a known rate.
   */
  function GetBaudRate(baud: int): (speed: nat)
    ensures baud in StandardRates ==> speed == baud
    ensures baud !in StandardRates ==> speed == B9600
    ensures speed in StandardRates
  {
    if baud in BaudRates then BaudRates[baud] else B9600
  }

  /** Resolving is idempotent: a resolved speed, read as a rate, resolves to itself. */
  lemma GetBaudRateIdempotent(baud: int)
    ensures GetBaudRate(GetBaudRate(baud)) == GetBaudRate(baud)
  {
  }

  // ---------------------------------------------------------------------------
  // Validation
  // ---------------------------------------------------------------------------

  /** The settings the backend accepts. */
  predicate Accepted(databits: Byte, parity: Parity, stopbits: StopBits)
  {
    && 5 <= databits <= 8
    && (parity == ParityNone || parity == ParityOdd || parity == ParityEven)
    && (stopbits == Stop1 || stopbits == Stop2)
  }

  /**
    The error validation reports: data bits are checked first, then parity,
    then stop bits, so the first invalid field decides the error.
   */
  function ValidationError(databits: Byte, parity: Parity, stopbits: StopBits): (e: Option<Error>)
    ensures e == None <==> Accepted(databits, parity, stopbits)
    ensures !(5 <= databits <= 8) ==> e == Some(ErrBadSize)
    ensures 5 <= databits <= 8 && parity != ParityNone && parity != ParityOdd && parity != ParityEven
            ==> e == Some(ErrBadParity)
    ensures e == Some(ErrBadStopBits) <==>
              5 <= databits <= 8 && (parity == ParityNone || parity == ParityOdd || parity == ParityEven)
              && stopbits != Stop1 && stopbits != Stop2
  {
    if !(5 <= databits <= 8) then Some(ErrBadSize)
    else if parity != ParityNone && parity != ParityOdd && parity != ParityEven then Some(ErrBadParity)
    else if stopbits != Stop1 && stopbits != Stop2 then Some(ErrBadStopBits)
    else None
  }

  // ---------------------------------------------------------------------------
  // The translation, specified bit-group by bit-group
  // ---------------------------------------------------------------------------

  /** The flags the first control-word update clears; all of them are input-mode flags. */
  const InputFlagsMask: Flags := BRKINT + ICRNL + INPCK + ISTRIP + IXOFF + IXON + PARMRK

  /** The local-mode flags cleared for raw mode. */
  const RawLocalMask: Flags := ICANON + ECHO + ECHOE + ISIG

  /** The control bits the settings decide. */
  const SettingsMask: Flags := CSIZE + PARENB + PARODD + CSTOPB + CLOCAL + CREAD

  /** Control bits that only the input-flags mask touches: they always end clear. */
  const ClearedMask: Flags := InputFlagsMask - SettingsMask

  /** Control bits the translation may touch; every other bit is kept. */
  const TouchedMask: Flags := InputFlagsMask + SettingsMask

  /** The character-size field for a number of data bits. */
  function CharSizeFlag(databits: Byte): Flags
    requires 5 <= databits <= 8
  {
    if databits == 5 then CS5
    else if databits == 6 then CS6
    else if databits == 7 then CS7
    else CS8
  }

  /**
    `u` is the record a successful translation of the settings makes from `t`. Together the
    clauses on `cflag` cover every bit, so `u` is determined (TranslatedDetermined).
   */
  predicate Translated(t: Termios, baud: int, databits: Byte, parity: Parity, stopbits: StopBits,
                       vmin: bv8, vtime: bv8, u: Termios)
  {
    && Accepted(databits, parity, stopbits)
    // the input-mode word is left alone
    && u.iflag == t.iflag
    // output post-processing off, nothing else in the output word changes
    && u.oflag == t.oflag - OPOST
    // canonical mode, echo, echo-erase and signals off, nothing else in the local word changes
    && u.lflag == t.lflag - RawLocalMask
    // the same resolved speed in both directions
    && u.ispeed == GetBaudRate(baud)
    && u.ospeed == GetBaudRate(baud)
    // VMIN and VTIME are stored, the other control characters are kept
    && u.cc == t.cc[VMIN := vmin][VTIME := vtime]
    && ControlTranslated(t.cflag, databits, parity, stopbits, u.cflag)
  }

  /**
    The control word `c`, made from `c0`, group by group: the character size, the parity
    enable and odd-parity bits and the stop bit hold the given values, CLOCAL and CREAD are
    set, the bits only the input-flags mask touches are clear and every other bit is as in `c0`.
   */
  predicate ControlGroups(c0: Flags, c: Flags, size: Flags, parenb: Flags, parodd: Flags, cstopb: Flags)
  {
    && c * CSIZE == size
    && c * PARENB == parenb
    && c * PARODD == parodd
    && c * CSTOPB == cstopb
    && CLOCAL + CREAD <= c
    && c * ClearedMask == {}
    && c - TouchedMask == c0 - TouchedMask
  }

  /**
    `c` is the control word a successful translation makes from `c0`: the character size
    of the data bits; parity enabled unless None, odd for Odd, even for Even and left as in
    `c0` for None; two stop bits for Stop2, and for Stop1 the stop bit clear, since the
    input-flags mask covers it (IXOFF and CSTOPB are the same bit on Darwin).
   */
  predicate ControlTranslated(c0: Flags, databits: Byte, parity: Parity, stopbits: StopBits, c: Flags)
    requires Accepted(databits, parity, stopbits)
  {
    ControlGroups(c0, c,
      CharSizeFlag(databits),
      if parity == ParityNone then {} else PARENB,
      if parity == ParityOdd then PARODD else if parity == ParityEven then {} else c0 * PARODD,
      if stopbits == Stop2 then CSTOPB else {})
  }

  /**
    The first control-word updates of `openPort`: the input-flags mask, the character size
    and PARENB are cleared and CLOCAL and CREAD are set. CSTOPB is cleared with the mask,
    since on Darwin it is the same bit as IXOFF.
   */
  method ClearControlFlags(c0: Flags) returns (c: Flags)
    ensures ControlGroups(c0, c, {}, {}, c0 * PARODD, {})
  {
    c := c0 - InputFlagsMask;
    c := c - (CSIZE + PARENB);
    c := c + (CLOCAL + CREAD);
  }

  /** The data-bits switch of `openPort`: sets the character size or reports ErrBadSize. */
  method SetCharacterSize(ghost c0: Flags, cflag: Flags, databits: Byte)
    returns (c: Flags, err: Option<Error>)
    requires ControlGroups(c0, cflag, {}, {}, c0 * PARODD, {})
    ensures err == None <==> 5 <= databits <= 8
    ensures err != None ==> err == Some(ErrBadSize)
    ensures err == None ==> ControlGroups(c0, c, CharSizeFlag(databits), {}, c0 * PARODD, {})
  {
    c := cflag;
    if databits == 5 {
      c := c + CS5;
    } else if databits == 6 {
      c := c + CS6;
    } else if databits == 7 {
      c := c + CS7;
    } else if databits == 8 {
      c := c + CS8;
    } else {
      return c, Some(ErrBadSize);
    }
    err := None;
  }

  /**
    The parity switch of `openPort`: None leaves PARENB clear, Odd sets PARENB and
    PARODD, Even sets PARENB and clears PARODD; anything else is ErrBadParity.
   */
  method SetParity(ghost c0: Flags, cflag: Flags, ghost size: Flags, parity: Parity)
    returns (c: Flags, err: Option<Error>)
    requires ControlGroups(c0, cflag, size, {}, c0 * PARODD, {})
    ensures err == None <==> parity == ParityNone || parity == ParityOdd || parity == ParityEven
    ensures err != None ==> err == Some(ErrBadParity)
    ensures parity == ParityNone ==> c == cflag
    ensures err == None ==> ControlGroups(c0, c, size,
      if parity == ParityNone then {} else PARENB,
      if parity == ParityOdd then PARODD else if parity == ParityEven then {} else c0 * PARODD,
      {})
  {
    c := cflag;
    if parity == ParityNone {
      // no parity: PARENB was cleared with the character size
    } else if parity == ParityOdd {
      c := c + PARENB;
      c := c + PARODD;
    } else if parity == ParityEven {
      c := c + PARENB;
      c := c - PARODD;
    } else {
      return c, Some(ErrBadParity);
    }
    err := None;
  }

  /** The stop-bits switch of `openPort`: Stop2 sets CSTOPB, Stop1 leaves it; anything else is ErrBadStopBits. */
  method SetStopBits(ghost c0: Flags, cflag: Flags, ghost size: Flags, ghost parenb: Flags, ghost parodd: Flags,
                     stopbits: StopBits)
    returns (c: Flags, err: Option<Error>)
    requires ControlGroups(c0, cflag, size, parenb, parodd, {})
    ensures err == None <==> stopbits == Stop1 || stopbits == Stop2
    ensures err != None ==> err == Some(ErrBadStopBits)
    ensures stopbits == Stop1 ==> c == cflag
    ensures err == None ==> ControlGroups(c0, c, size, parenb, parodd, if stopbits == Stop2 then CSTOPB else {})
  {
    c := cflag;
    if stopbits == Stop1 {
      // one stop bit: CSTOPB is left as it is
    } else if stopbits == Stop2 {
      c := c + CSTOPB;
    } else {
      return c, Some(ErrBadStopBits);
    }
    err := None;
  }

  /**
    The attribute translation of `openPort`: it works on its own copy of the record
    fetched from the device and returns it, or the first validation error.
   */
  method ConfigureTermios(t: Termios, baud: int, databits: Byte, parity: Parity, stopbits: StopBits,
                          vmin: bv8, vtime: bv8)
    returns (r: Result<Termios, Error>)
    ensures r.Failure? ==> ValidationError(databits, parity, stopbits) == Some(r.error)
    ensures r.Success? ==> Translated(t, baud, databits, parity, stopbits, vmin, vtime, r.value)
  {
    var termios := t;
    var cflag := ClearControlFlags(termios.cflag);

    var speed := GetBaudRate(baud);
    termios := termios.(ispeed := speed);
    termios := termios.(ospeed := speed);

    var err;
    cflag, err := SetCharacterSize(t.cflag, cflag, databits);
    if err != None {
      return Failure(err.value);
    }
    cflag, err := SetParity(t.cflag, cflag, CharSizeFlag(databits), parity);
    if err != None {
      return Failure(err.value);
    }
    cflag, err := SetStopBits(t.cflag, cflag, CharSizeFlag(databits),
      if parity == ParityNone then {} else PARENB,
      if parity == ParityOdd then PARODD else if parity == ParityEven then {} else t.cflag * PARODD,
      stopbits);
    if err != None {
      return Failure(err.value);
    }
    termios := termios.(cflag := cflag);

    termios := termios.(lflag := termios.lflag - RawLocalMask);
    termios := termios.(oflag := termios.oflag - OPOST);

    termios := termios.(cc := termios.cc[VMIN := vmin]);
    termios := termios.(cc := termios.cc[VTIME := vtime]);
    return Success(termios);
  }

  // ---------------------------------------------------------------------------
  // Reading the settings back from a record
  // ---------------------------------------------------------------------------

  /** The data bits a control word's character-size field stands for. */
  function DataBitsOf(cflag: Flags): (databits: Byte)
    ensures 5 <= databits <= 8 && CharSizeFlag(databits) == cflag * CSIZE
  {
    var size := cflag * CSIZE;
    if size == CS5 then 5
    else if size == CS6 then 6
    else if size == CS7 then 7
    else assert size == CS8 by { CharSizeCases(cflag); } 8
  }

  /** The character-size field of any control word is one of the four sizes. */
  lemma CharSizeCases(cflag: Flags)
    ensures cflag * CSIZE in {CS5, CS6, CS7, CS8}
  {
    var size := cflag * CSIZE;
    if 8 in size && 9 in size {
      assert size == CS8;
    } else if 8 in size {
      assert size == CS6;
    } else if 9 in size {
      assert size == CS7;
    } else {
      assert size == CS5;
    }
  }

  /** The parity a control word's PARENB and PARODD bits stand for. */
  function ParityOf(cflag: Flags): (parity: Parity)
    ensures parity == ParityNone <==> cflag * PARENB == {}
    ensures parity == ParityOdd <==> cflag * PARENB == PARENB && cflag * PARODD == PARODD
    ensures parity == ParityEven <==> cflag * PARENB == PARENB && cflag * PARODD == {}
  {
    if cflag * PARENB == {} then ParityNone
    else if cflag * PARODD == PARODD then ParityOdd
    else ParityEven
  }

  /** The stop bits a control word's CSTOPB bit stands for. */
  function StopBitsOf(cflag: Flags): (stopbits: StopBits)
    ensures stopbits == Stop2 <==> cflag * CSTOPB == CSTOPB
    ensures stopbits == Stop1 <==> cflag * CSTOPB == {}
  {
    if cflag * CSTOPB == CSTOPB then Stop2 else Stop1
  }

  /** The settings can be read back from the control word a translation makes. */
  lemma ControlReadBack(c0: Flags, databits: Byte, parity: Parity, stopbits: StopBits, c: Flags)
    requires Accepted(databits, parity, stopbits)
    requires ControlTranslated(c0, databits, parity, stopbits, c)
    ensures DataBitsOf(c) == databits
    ensures ParityOf(c) == parity
    ensures StopBitsOf(c) == stopbits
  {
  }

  /** Every setting is recorded in the translated record and can be read back from it. */
  lemma SettingsReadBack(t: Termios, baud: int, databits: Byte, parity: Parity, stopbits: StopBits,
                         vmin: bv8, vtime: bv8, u: Termios)
    requires Translated(t, baud, databits, parity, stopbits, vmin, vtime, u)
    ensures DataBitsOf(u.cflag) == databits
    ensures ParityOf(u.cflag) == parity
    ensures StopBitsOf(u.cflag) == stopbits
    ensures u.ispeed == u.ospeed && u.ispeed == (if baud in StandardRates then baud else 9600)
    ensures u.cc[VMIN] == vmin && u.cc[VTIME] == vtime
  {
    ControlReadBack(t.cflag, databits, parity, stopbits, u.cflag);
  }

  /** The groups cover every bit: two control words with the same groups are equal. */
  lemma {:induction false} ControlGroupsDetermined(c0: Flags, c1: Flags, c2: Flags,
                                                   size: Flags, parenb: Flags, parodd: Flags, cstopb: Flags)
    requires ControlGroups(c0, c1, size, parenb, parodd, cstopb)
    requires ControlGroups(c0, c2, size, parenb, parodd, cstopb)
    ensures c1 == c2
  {
    forall b | b in c1
      ensures b in c2
    {
      if b !in TouchedMask {
        assert b in c1 - TouchedMask;
      } else if b in CSIZE {
        assert b in c1 * CSIZE;
      } else if b in PARENB {
        assert b in c1 * PARENB;
      } else if b in PARODD {
        assert b in c1 * PARODD;
      } else if b in CSTOPB {
        assert b in c1 * CSTOPB;
      }
    }
    forall b | b in c2
      ensures b in c1
    {
      if b !in TouchedMask {
        assert b in c2 - TouchedMask;
      } else if b in CSIZE {
        assert b in c2 * CSIZE;
      } else if b in PARENB {
        assert b in c2 * PARENB;
      } else if b in PARODD {
        assert b in c2 * PARODD;
      } else if b in CSTOPB {
        assert b in c2 * CSTOPB;
      }
    }
  }

  /** The specification leaves no freedom: the settings determine the translated record. */
  lemma TranslatedDetermined(t: Termios, baud: int, databits: Byte, parity: Parity, stopbits: StopBits,
                             vmin: bv8, vtime: bv8, u1: Termios, u2: Termios)
    requires Translated(t, baud, databits, parity, stopbits, vmin, vtime, u1)
    requires Translated(t, baud, databits, parity, stopbits, vmin, vtime, u2)
    ensures u1 == u2
  {
    ControlGroupsDetermined(t.cflag, u1.cflag, u2.cflag, CharSizeFlag(databits),
      if parity == ParityNone then {} else PARENB,
      if parity == ParityOdd then PARODD else if parity == ParityEven then {} else t.cflag * PARODD,
      if stopbits == Stop2 then CSTOPB else {});
  }

  /** A translated control word is its own translation with the same settings. */
  lemma ControlIdempotent(c0: Flags, databits: Byte, parity: Parity, stopbits: StopBits, c: Flags)
    requires Accepted(databits, parity, stopbits)
    requires ControlTranslated(c0, databits, parity, stopbits, c)
    ensures ControlTranslated(c, databits, parity, stopbits, c)
  {
  }

  /** Translating an already translated record with the same settings changes nothing. */
  lemma TranslatedIdempotent(t: Termios, baud: int, databits: Byte, parity: Parity, stopbits: StopBits,
                             vmin: bv8, vtime: bv8, u: Termios)
    requires Translated(t, baud, databits, parity, stopbits, vmin, vtime, u)
    ensures Translated(u, baud, databits, parity, stopbits, vmin, vtime, u)
  {
    ControlIdempotent(t.cflag, databits, parity, stopbits, u.cflag);
  }

  /** The records a successful translation of some settings can make from `t`, described without the settings. */
  predicate RawShape(t: Termios, u: Termios)
  {
    && u.iflag == t.iflag
    && u.oflag == t.oflag - OPOST
    && u.lflag == t.lflag - RawLocalMask
    && u.ispeed in StandardRates
    && u.ospeed == u.ispeed
    && u.cc == t.cc[VMIN := u.cc[VMIN]][VTIME := u.cc[VTIME]]
    && CLOCAL + CREAD <= u.cflag
    && u.cflag * ClearedMask == {}
    && u.cflag - TouchedMask == t.cflag - TouchedMask
    && (u.cflag * PARENB == {} ==> u.cflag * PARODD == t.cflag * PARODD)
  }

  /** A record of the raw shape is the translation of the settings read back from it. */
  lemma RawShapeTranslated(t: Termios, u: Termios)
    requires RawShape(t, u)
    ensures Translated(t, u.ispeed, DataBitsOf(u.cflag), ParityOf(u.cflag), StopBitsOf(u.cflag),
                       u.cc[VMIN], u.cc[VTIME], u)
  {
  }

  /** A translated record has the raw shape. */
  lemma TranslatedRawShape(t: Termios, baud: int, databits: Byte, parity: Parity, stopbits: StopBits,
                           vmin: bv8, vtime: bv8, u: Termios)
    requires Translated(t, baud, databits, parity, stopbits, vmin, vtime, u)
    ensures RawShape(t, u)
  {
  }

  /** RawShape is exactly the image of the translation. */
  lemma TranslatedImage(t: Termios, u: Termios)
    ensures RawShape(t, u) <==>
      exists baud: int, databits: Byte, parity: Parity, stopbits: StopBits, vmin: bv8, vtime: bv8 ::
        Translated(t, baud, databits, parity, stopbits, vmin, vtime, u)
  {
    if RawShape(t, u) {
      RawShapeTranslated(t, u);
    }
    if exists baud: int, databits: Byte, parity: Parity, stopbits: StopBits, vmin: bv8, vtime: bv8 ::
         Translated(t, baud, databits, parity, stopbits, vmin, vtime, u)
    {
      var baud: int, databits: Byte, parity: Parity, stopbits: StopBits, vmin: bv8, vtime: bv8 :|
        Translated(t, baud, databits, parity, stopbits, vmin, vtime, u);
      TranslatedRawShape(t, baud, databits, parity, stopbits, vmin, vtime, u);
    }
  }
}
