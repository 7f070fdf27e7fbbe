/**
 * The serial-connection manager of lib/serial.ts: one process-wide port handle,
 * a read-only status probe, stale-handle cleanup, open-with-reuse, a guarded
 * command write and a best-effort close.
 *
 * Every operation is given twice: as a pure step function (`...Spec`) from the
 * operating system's answers and the current handle to the new handle, the OS
 * calls made and the result; and as a method of `SerialManager` that updates
 * the handle step by step, as the source does, and is proved to agree with
 * its step function.
 */
module Serial {
  import opened Wrappers

  /** A value thrown in JavaScript: an `Error` object, or any other value, kept as its `String()` text. */
  datatype Exception = Error(message: string) | NonError(text: string)

  /** `e instanceof Error ? e.message : fallback` */
  function MessageOr(e: Exception, fallback: string): string
  {
    match e
    case Error(m) => m
    case NonError(_) => fallback
  }

  /** `e instanceof Error ? e.message : String(e)` (lib/serial.ts:151) */
  function Text(e: Exception): string
  {
    match e
    case Error(m) => m
    case NonError(t) => t
  }

  /** JavaScript's `s.includes(sub)`: `sub` occurs at some position of `s`. */
  function Includes(s: string, sub: string): (b: bool)
    ensures b <==> exists i | 0 <= i <= |s| :: sub <= s[i..]
    decreases |s|
  {
    if sub <= s then
      assert sub <= s[0..];
      true
    else if s == [] then
      false
    else
      var b := Includes(s[1..], sub);
      assert forall i | 1 <= i <= |s| :: s[i..] == s[1..][i - 1..];
      b
  }

  /** An OS error message that the source reads as "the port is held by someone else". */
  predicate IsBusy(message: string)
  {
    Includes(message, "Access denied") || Includes(message, "in use")
  }

  /** One entry of the OS device enumeration. */
  datatype PortInfo = PortInfo(path: string)

  /** `ports.some(p => p.path === path)` (lib/serial.ts:29) */
  function AnyHasPath(ports: seq<PortInfo>, path: string): (b: bool)
    ensures b <==> exists i | 0 <= i < |ports| :: ports[i].path == path
  {
    if ports == [] then
      false
    else if ports[0].path == path then
      true
    else
      var b := AnyHasPath(ports[1..], path);
      assert forall i | 1 <= i < |ports| :: ports[i] == ports[1..][i - 1];
      b
  }

  /** The port handle: the path and baud rate it was created with and whether it reports itself open. */
  datatype Handle = Handle(path: string, baudRate: int, isOpen: bool)

  /** The probe's answer; `error` is absent exactly when the port is available. */
  datatype PortStatus = PortStatus(available: bool, open: bool, inUse: bool, error: Option<string>)

  /** A call into the serial library that reaches the device, with whether it succeeded. */
  datatype OsCall =
    | Open(path: string, baudRate: int, ok: bool)
    | Close(ok: bool)
    | Write(data: string, ok: bool)
    | Drain(ok: bool)

  /**
   * What the operating system answers during one operation: the device
   * enumeration (or the error it throws), and the outcome of opening,
   * closing, the empty liveness write, the command write and the drain.
   */
  datatype Env = Env(
    listing: Result<seq<PortInfo>, Exception>,
    openError: Option<Exception>,
    closeError: Option<Exception>,
    emptyWriteThrows: bool,
    writeError: Option<Exception>,
    drainError: Option<Exception>)

  /** The device path is listed by a successful enumeration. */
  predicate Listed(env: Env, path: string)
  {
    env.listing.Success? && AnyHasPath(env.listing.value, path)
  }

  const DefaultPath: string := "COM6"

  /** The configuration read from the environment: the ARDUINO_PORT setting and the baud rate. */
  datatype Config = Config(portSetting: Option<string>, baudRate: int)

  /** `process.env.ARDUINO_PORT || "COM6"`: an unset or empty setting falls back to the default. */
  function PortPath(setting: Option<string>): (p: string)
    ensures p != []
    ensures setting.Some? && setting.value != [] ==> p == setting.value
    ensures setting.None? || setting.value == [] ==> p == DefaultPath
  {
    if setting.Some? && setting.value != [] then setting.value else DefaultPath
  }

  /** checkPortStatus (lib/serial.ts:17-63): correlate the enumeration with the handle. */
  function CheckPortStatus(env: Env, port: Option<Handle>, path: string): (s: PortStatus)
    ensures s.inUse == s.open && (s.open ==> s.available)
    ensures s.available <==> Listed(env, path)
    ensures s.available ==> s.error == None && s.open == (port.Some? && port.value.isOpen)
    ensures !s.available ==> !s.open && s.error.Some?
  {
    match env.listing
    case Failure(e) => PortStatus(false, false, false, Some(MessageOr(e, "Unknown error")))
    case Success(ports) =>
      if !AnyHasPath(ports, path) then
        PortStatus(false, false, false, Some("Port " + path + " not found"))
      else if port.Some? then
        PortStatus(true, port.value.isOpen, port.value.isOpen, None)
      else
        PortStatus(true, false, false, None)
  }

  /** The message of the error getSerialPort throws for an unavailable port (lib/serial.ts:113). */
  function NotAvailableMessage(path: string, error: Option<string>): string
  {
    "Port " + path + " is not available: " + (if error.Some? && error.value != [] then error.value else "Port not found")
  }

  /** The message of the error getSerialPort throws for a port held by another process (lib/serial.ts:154). */
  function BusyMessage(path: string): string
  {
    "Port " + path + " is in use by another application"
  }

  /** What getSerialPort throws when opening fails (lib/serial.ts:151-158). */
  function OpenFailure(path: string, e: Exception): Exception
  {
    if IsBusy(Text(e)) then Error(BusyMessage(path)) else e
  }

  /**
   * The state after one operation: the handle, the log of OS calls made so
   * far (the calls of this operation appended, in order), and the result.
   */
  datatype Step<T> = Step(port: Option<Handle>, log: seq<OsCall>, result: T)

  /** closeSerialPort (lib/serial.ts:194-204). */
  function CloseSpec(env: Env, port: Option<Handle>, log: seq<OsCall>): Step<()>
  {
    if port.Some? && port.value.isOpen then Step(None, log + [Close(env.closeError.None?)], ())
    else Step(port, log, ())
  }

  /** disconnectIfNeeded (lib/serial.ts:68-93). */
  function DisconnectSpec(env: Env, port: Option<Handle>, log: seq<OsCall>, path: string): Step<()>
  {
    if port.None? then
      Step(port, log, ())
    else
      var status := CheckPortStatus(env, port, path);
      if !status.open || !status.available then
        CloseSpec(env, port, log)
      else if status.inUse && port.value.isOpen then
        var probed := log + [Write("", !env.emptyWriteThrows)];
        if env.emptyWriteThrows then CloseSpec(env, port, probed) else Step(port, probed, ())
      else
        Step(port, log, ())
  }

  /**
   * getSerialPort (lib/serial.ts:95-160). The forced close of lines 116-119
   * has no counterpart: `SerialManager.GetSerialPort` proves it unreachable.
   */
  function GetSpec(env: Env, port: Option<Handle>, log: seq<OsCall>, cfg: Config): Step<Result<Handle, Exception>>
  {
    var path := PortPath(cfg.portSetting);
    var d := DisconnectSpec(env, port, log, path);
    if d.port.Some? && d.port.value.isOpen then
      Step(d.port, d.log, Success(d.port.value))
    else
      var status := CheckPortStatus(env, d.port, path);
      if !status.available then
        Step(d.port, d.log, Failure(Error(NotAvailableMessage(path, status.error))))
      else
        var afterOpen := d.log + [Open(path, cfg.baudRate, env.openError.None?)];
        match env.openError
        case None =>
          var h := Handle(path, cfg.baudRate, true);
          Step(Some(h), afterOpen, Success(h))
        case Some(e) =>
          Step(None, afterOpen, Failure(OpenFailure(path, e)))
  }

  /** The OS calls of the command write and drain (lib/serial.ts:175-184); the drain runs only after a write that did not throw. */
  function WriteCalls(env: Env, command: string): seq<OsCall>
  {
    if env.writeError.None? then [Write(command, true), Drain(env.drainError.None?)] else [Write(command, false)]
  }

  /** The guarded write and drain of sendCommand (lib/serial.ts:170-184), given what getSerialPort gave. */
  function WriteSpec(env: Env, got: Step<Result<Handle, Exception>>, command: string): Step<Option<Exception>>
  {
    match got.result
    case Failure(e) => Step(got.port, got.log, Some(e))
    case Success(h) =>
      if !h.isOpen then
        Step(got.port, got.log, Some(Error("Port is not open")))
      else
        Step(got.port, got.log + WriteCalls(env, command), if env.writeError.Some? then env.writeError else env.drainError)
  }

  /** sendCommand (lib/serial.ts:162-192); the result is the exception it rethrows, if any. */
  function SendSpec(env: Env, port: Option<Handle>, log: seq<OsCall>, cfg: Config, command: string): Step<Option<Exception>>
  {
    var path := PortPath(cfg.portSetting);
    var d := DisconnectSpec(env, port, log, path);
    var w := WriteSpec(env, GetSpec(env, d.port, d.log, cfg), command);
    if w.result.None? then
      w
    else
      var c := DisconnectSpec(env, w.port, w.log, path);
      Step(c.port, c.log, w.result)
  }

  /**
   * The log shows a successful open of `path` at `baudRate` with no close
   * call after it: the handle was opened by this process and not yet closed.
   */
  ghost predicate OpenedSinceClose(calls: seq<OsCall>, path: string, baudRate: int)
    decreases |calls|
  {
    if calls == [] then
      false
    else
      match calls[|calls| - 1]
      case Close(_) => false
      case Open(p, b, ok) =>
        (ok && p == path && b == baudRate) || OpenedSinceClose(calls[..|calls| - 1], path, baudRate)
      case _ => OpenedSinceClose(calls[..|calls| - 1], path, baudRate)
  }

  /** Calls other than close keep a successful open standing. */
  lemma {:induction false} OpenedSinceCloseExtends(calls: seq<OsCall>, more: seq<OsCall>, path: string, baudRate: int)
    requires OpenedSinceClose(calls, path, baudRate)
    requires forall k | 0 <= k < |more| :: !more[k].Close?
    ensures OpenedSinceClose(calls + more, path, baudRate)
    decreases |more|
  {
    if more != [] {
      var front := more[..|more| - 1];
      OpenedSinceCloseExtends(calls, front, path, baudRate);
      var all := calls + more;
      assert all[..|all| - 1] == calls + front;
      assert all[|all| - 1] == more[|more| - 1];
    } else {
      assert calls + more == calls;
    }
  }

  /** The module-level `port` of lib/serial.ts:5, with the OS calls made so far. */
  class SerialManager {
    var port: Option<Handle>
    ghost var calls: seq<OsCall>

    /** A registered handle was opened by this process and has not been closed by it since. */
    ghost predicate Valid()
      reads this
    {
      port.Some? ==> OpenedSinceClose(calls, port.value.path, port.value.baudRate)
    }

    constructor ()
      ensures Valid() && port == None && calls == []
    {
      port := None;
      calls := [];
    }

    /** closeSerialPort (lib/serial.ts:194-204): a failed OS close is swallowed. */
    method CloseSerialPort(env: Env)
      requires Valid()
      modifies this
      ensures Valid()
      ensures var c := CloseSpec(env, old(port), old(calls)); port == c.port && calls == c.log
    {
      if port.Some? && port.value.isOpen {
        calls := calls + [Close(env.closeError.None?)];
        port := None;
      }
    }

    /** disconnectIfNeeded (lib/serial.ts:68-93). */
    method DisconnectIfNeeded(env: Env, path: string)
      requires Valid()
      modifies this
      ensures Valid()
      ensures var d := DisconnectSpec(env, old(port), old(calls), path); port == d.port && calls == d.log
    {
      if port.Some? {
        var status := CheckPortStatus(env, port, path);
        if !status.open || !status.available {
          CloseSerialPort(env);
        } else if status.inUse && port.value.isOpen {
          // The empty write (lib/serial.ts:81) either goes through or throws.
          OpenedSinceCloseExtends(calls, [Write("", !env.emptyWriteThrows)], port.value.path, port.value.baudRate);
          calls := calls + [Write("", !env.emptyWriteThrows)];
          if env.emptyWriteThrows {
            CloseSerialPort(env);
          }
        }
      }
    }

    /** getSerialPort (lib/serial.ts:95-160). */
    method GetSerialPort(env: Env, cfg: Config) returns (r: Result<Handle, Exception>)
      requires Valid()
      modifies this
      ensures Valid()
      ensures var g := GetSpec(env, old(port), old(calls), cfg); port == g.port && calls == g.log && r == g.result
    {
      var path := PortPath(cfg.portSetting);
      DisconnectIfNeeded(env, path);
      if port.Some? && port.value.isOpen {
        return Success(port.value);
      }
      var status := CheckPortStatus(env, port, path);
      if !status.available {
        return Failure(Error(NotAvailableMessage(path, status.error)));
      }
      if status.inUse && port.Some? {
        // lib/serial.ts:116-119: inUse equals open, and an open handle was returned above.
        assert false;
      }
      // The new handle replaces whatever stale handle was registered (lib/serial.ts:122).
      port := Some(Handle(path, cfg.baudRate, false));
      calls := calls + [Open(path, cfg.baudRate, env.openError.None?)];
      match env.openError {
        case None =>
          port := Some(Handle(path, cfg.baudRate, true));
          r := Success(port.value);
        case Some(e) =>
          port := None;
          r := Failure(OpenFailure(path, e));
      }
    }

    /** sendCommand (lib/serial.ts:162-192); `thrown` is the exception it rethrows, if any. */
    method SendCommand(env: Env, cfg: Config, command: string) returns (thrown: Option<Exception>)
      requires Valid()
      modifies this
      ensures Valid()
      ensures var s := SendSpec(env, old(port), old(calls), cfg, command); port == s.port && calls == s.log && thrown == s.result
    {
      var path := PortPath(cfg.portSetting);
      DisconnectIfNeeded(env, path);
      var serialPort := GetSerialPort(env, cfg);
      match serialPort {
        case Failure(e) =>
          thrown := Some(e);
        case Success(h) =>
          if !h.isOpen {
            thrown := Some(Error("Port is not open"));
          } else {
            OpenedSinceCloseExtends(calls, WriteCalls(env, command), h.path, h.baudRate);
            calls := calls + WriteCalls(env, command);
            thrown := if env.writeError.Some? then env.writeError else env.drainError;
          }
      }
      if thrown.Some? {
        DisconnectIfNeeded(env, path);
      }
    }

    /** The "close" listener (lib/serial.ts:138-141), delivered between operations. */
    method OnClose()
      requires Valid()
      modifies this
      ensures Valid() && port == None && calls == old(calls)
    {
      port := None;
    }

    /** The "error" listener (lib/serial.ts:129-136), delivered between operations. */
    method OnError(env: Env, err: string)
      requires Valid()
      modifies this
      ensures Valid()
      ensures var c := CloseSpec(env, old(port), old(calls));
        if IsBusy(err) then port == c.port && calls == c.log
        else port == old(port) && calls == old(calls)
    {
      if IsBusy(err) {
        CloseSerialPort(env);
      }
    }
  }
}
