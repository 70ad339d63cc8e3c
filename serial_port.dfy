/**
  The Darwin serial port: opening a device, checking that it is a terminal, committing
  the translated attributes and switching it to blocking mode, and the port's Flush and
  Close. The operating-system calls are modelled by their outcomes, which the caller
  supplies: `None` for success, `Some(errno)` for failure.
 */
module SerialPort {
  import opened Wrappers
  import opened DarwinTermios
  import opened SerialConfig

  /** The outcomes of the system calls `openPort` makes, in the order it makes them. */
  datatype Syscalls = Syscalls(
    openFile: Option<nat>,     // os.OpenFile
    ttyProbe: Option<nat>,     // the TIOCGETA probe of isTTY
    getTermios: Option<nat>,   // unix.IoctlGetTermios
    setTermios: Option<nat>,   // unix.IoctlSetTermios
    setNonblock: Option<nat>)  // unix.SetNonblock(fd, false)

  /** The error a failed system call reports. */
  function OsFailure(outcome: Option<nat>): (err: Option<Error>)
    ensures err == None <==> outcome == None
    ensures outcome != None ==> err == Some(OsError(outcome.value))
  {
    if outcome == None then None else Some(OsError(outcome.value))
  }

  /**
    An open file on a terminal device: whether the descriptor is still open, whether it
    is in blocking mode, and the device's terminal attributes.
   */
  class File {
    const name: string
    var isOpen: bool
    var blocking: bool
    var attrs: Termios

    /** os.OpenFile with O_NONBLOCK: the descriptor starts open and non-blocking. */
    constructor Open(name: string, device: Termios)
      ensures this.name == name && isOpen && !blocking && attrs == device
    {
      this.name := name;
      isOpen := true;
      blocking := false;
      attrs := device;
    }

    /** unix.IoctlGetTermios: the device's attributes, or the call's error. */
    method GetTermios(outcome: Option<nat>) returns (r: Result<Termios, Error>)
      ensures !isOpen ==> r == Failure(ErrClosed)
      ensures isOpen && outcome == None ==> r == Success(attrs)
      ensures isOpen && outcome != None ==> r == Failure(OsError(outcome.value))
    {
      if !isOpen {
        return Failure(ErrClosed);
      }
      if outcome != None {
        return Failure(OsError(outcome.value));
      }
      return Success(attrs);
    }

    /** unix.IoctlSetTermios: commits `u` to the device unless the call fails. */
    method SetTermios(u: Termios, outcome: Option<nat>) returns (err: Option<Error>)
      modifies this
      ensures !old(isOpen) ==> err == Some(ErrClosed)
      ensures old(isOpen) ==> err == OsFailure(outcome)
      ensures attrs == (if err == None then u else old(attrs))
      ensures isOpen == old(isOpen) && blocking == old(blocking)
    {
      if !isOpen {
        return Some(ErrClosed);
      }
      err := OsFailure(outcome);
      if err == None {
        attrs := u;
      }
    }

    /** unix.SetNonblock: sets or clears O_NONBLOCK unless the call fails. */
    method SetNonblock(nonblocking: bool, outcome: Option<nat>) returns (err: Option<Error>)
      modifies this
      ensures !old(isOpen) ==> err == Some(ErrClosed)
      ensures old(isOpen) ==> err == OsFailure(outcome)
      ensures blocking == (if err == None then !nonblocking else old(blocking))
      ensures isOpen == old(isOpen) && attrs == old(attrs)
    {
      if !isOpen {
        return Some(ErrClosed);
      }
      err := OsFailure(outcome);
      if err == None {
        blocking := !nonblocking;
      }
    }

    /** File.Sync: reports the outcome; nothing in the model changes. */
    method Sync(outcome: Option<nat>) returns (err: Option<Error>)
      ensures !isOpen ==> err == Some(ErrClosed)
      ensures isOpen ==> err == OsFailure(outcome)
    {
      if !isOpen {
        return Some(ErrClosed);
      }
      return OsFailure(outcome);
    }

    /**
      File.Close: the descriptor is released even when close(2) reports an error;
      closing a closed file fails with ErrClosed.
     */
    method Close(outcome: Option<nat>) returns (err: Option<Error>)
      modifies this
      ensures !isOpen
      ensures !old(isOpen) ==> err == Some(ErrClosed)
      ensures old(isOpen) ==> err == OsFailure(outcome)
      ensures blocking == old(blocking) && attrs == old(attrs)
    {
      if !isOpen {
        return Some(ErrClosed);
      }
      isOpen := false;
      err := OsFailure(outcome);
    }
  }

  /** isTTY: a file is a terminal when the TIOCGETA probe succeeds. */
  method IsTty(f: File, probe: Option<nat>) returns (b: bool)
    ensures b <==> f.isOpen && probe == None
  {
    var r := f.GetTermios(probe);
    return r.Success?;
  }

  /** An open serial port. */
  class Port {
    const f: File

    constructor (f: File)
      ensures this.f == f
    {
      this.f := f;
    }

    /** Flush syncs the file and reports success whatever the sync did. */
    method Flush(syncOutcome: Option<nat>) returns (err: Option<Error>)
      ensures err == None
    {
      var _ := f.Sync(syncOutcome);
      return None;
    }

    /** Close closes the file and reports what closing it reported. */
    method Close(outcome: Option<nat>) returns (err: Option<Error>)
      modifies f
      ensures !f.isOpen
      ensures !old(f.isOpen) ==> err == Some(ErrClosed)
      ensures old(f.isOpen) ==> err == OsFailure(outcome)
      ensures f.blocking == old(f.blocking) && f.attrs == old(f.attrs)
    {
      err := f.Close(outcome);
    }
  }

  /**
    openPort: opens the device, checks it is a terminal, fetches and translates its
    attributes, commits them and puts the descriptor in blocking mode. `file` is the
    file it opened, if any. Every failure of a system call after the open closes the
    file; the three validation errors return with the file still open.
   */
  method OpenPort(name: string, baud: int, databits: Byte, parity: Parity, stopbits: StopBits,
                  vmin: bv8, vtime: bv8, device: Termios, sys: Syscalls)
    returns (port: Port?, err: Option<Error>, ghost file: File?)
    ensures port == null <==> err != None
    ensures err == None <==>
      && sys.openFile == None && sys.ttyProbe == None && sys.getTermios == None
      && Accepted(databits, parity, stopbits) && sys.setTermios == None && sys.setNonblock == None
    // the open fails: nothing to close
    ensures sys.openFile != None ==> file == null && err == OsFailure(sys.openFile)
    ensures sys.openFile == None ==> file != null && fresh(file) && file.name == name
    // not a terminal, or its attributes cannot be read: closed, attributes untouched
    ensures sys.openFile == None && sys.ttyProbe != None ==>
      err == Some(ErrNotTty) && !file.isOpen && file.attrs == device
    ensures sys.openFile == None && sys.ttyProbe == None && sys.getTermios != None ==>
      err == OsFailure(sys.getTermios) && !file.isOpen && file.attrs == device
    // invalid settings: the first validation error, the file left open and untouched
    ensures sys.openFile == None && sys.ttyProbe == None && sys.getTermios == None
            && !Accepted(databits, parity, stopbits) ==>
      err == ValidationError(databits, parity, stopbits)
      && file.isOpen && !file.blocking && file.attrs == device
    // the attributes cannot be committed: closed, attributes untouched
    ensures sys.openFile == None && sys.ttyProbe == None && sys.getTermios == None
            && Accepted(databits, parity, stopbits) && sys.setTermios != None ==>
      err == OsFailure(sys.setTermios) && !file.isOpen && file.attrs == device
    // blocking mode cannot be set: closed, with the new attributes already committed
    ensures sys.openFile == None && sys.ttyProbe == None && sys.getTermios == None
            && Accepted(databits, parity, stopbits) && sys.setTermios == None && sys.setNonblock != None ==>
      err == OsFailure(sys.setNonblock) && !file.isOpen
      && Translated(device, baud, databits, parity, stopbits, vmin, vtime, file.attrs)
    // success: a port on the open, blocking file with the translated attributes
    ensures port != null ==>
      fresh(port) && port.f == file && file.isOpen && file.blocking
      && Translated(device, baud, databits, parity, stopbits, vmin, vtime, file.attrs)
  {
    if sys.openFile != None {
      return null, OsFailure(sys.openFile), null;
    }
    var f := new File.Open(name, device);
    file := f;

    var tty := IsTty(f, sys.ttyProbe);
    if !tty {
      var _ := f.Close(None);
      return null, Some(ErrNotTty), file;
    }

    var got := f.GetTermios(sys.getTermios);
    if got.Failure? {
      var _ := f.Close(None);
      return null, Some(got.error), file;
    }

    var configured := ConfigureTermios(got.value, baud, databits, parity, stopbits, vmin, vtime);
    if configured.Failure? {
      return null, Some(configured.error), file;
    }

    err := f.SetTermios(configured.value, sys.setTermios);
    if err != None {
      var _ := f.Close(None);
      return null, err, file;
    }

    err := f.SetNonblock(false, sys.setNonblock);
    if err != None {
      var _ := f.Close(None);
      return null, err, file;
    }

    port := new Port(f);
  }
}
