/**
 * What lib/serial.ts promises, proved about the step functions of module
 * Serial (which the methods of `SerialManager` are proved to follow).
 */
module SerialProperties {
  import opened Wrappers
  import opened Serial

  // ---------------------------------------------------------------- checkPortStatus

  /** A path the enumeration does not list is reported absent, closed and unused, with "not found". */
  lemma UnlistedPortIsUnavailable(env: Env, port: Option<Handle>, path: string)
    requires env.listing.Success?
    requires forall i | 0 <= i < |env.listing.value| :: env.listing.value[i].path != path
    ensures CheckPortStatus(env, port, path) == PortStatus(false, false, false, Some("Port " + path + " not found"))
  {
  }

  /** A failing enumeration yields all-false and the thrown message ("Unknown error" for a non-Error). */
  lemma ListingFailureIsUnavailable(env: Env, port: Option<Handle>, path: string)
    requires env.listing.Failure?
    ensures CheckPortStatus(env, port, path) == PortStatus(false, false, false, Some(MessageOr(env.listing.error, "Unknown error")))
  {
  }

  /**
   * With the path listed, any registered handle decides open and inUse by
   * its own flag; the handle's path is never compared with the queried one.
   */
  lemma ProbeIgnoresHandlePath(env: Env, h: Handle, path: string)
    requires Listed(env, path)
    ensures CheckPortStatus(env, Some(h), path) == PortStatus(true, h.isOpen, h.isOpen, None)
  {
  }

  /** An empty device list: "COM6" is not found. */
  lemma NoDevicesMeansNotFound(env: Env, port: Option<Handle>)
    requires env.listing == Success([])
    ensures CheckPortStatus(env, port, DefaultPath) == PortStatus(false, false, false, Some("Port COM6 not found"))
  {
    assert "Port " + DefaultPath + " not found" == "Port COM6 not found";
  }

  // ---------------------------------------------------------------- closeSerialPort

  /** An open handle is dropped after one close call, whether or not that call failed. */
  lemma CloseDropsOpenHandle(env: Env, h: Handle, log: seq<OsCall>)
    requires h.isOpen
    ensures CloseSpec(env, Some(h), log) == Step(None, log + [Close(env.closeError.None?)], ())
  {
  }

  /** No handle, or one that reports closed: nothing is called and the handle stays as it is. */
  lemma CloseKeepsClosedHandle(env: Env, port: Option<Handle>, log: seq<OsCall>)
    requires port.None? || !port.value.isOpen
    ensures CloseSpec(env, port, log) == Step(port, log, ())
  {
  }

  // ---------------------------------------------------------------- disconnectIfNeeded

  /** Without a handle the cleanup does nothing. */
  lemma DisconnectWithoutHandle(env: Env, log: seq<OsCall>, path: string)
    ensures DisconnectSpec(env, None, log, path) == Step(None, log, ())
  {
  }

  /** A handle whose port is unlisted or reports closed is handed to closeSerialPort. */
  lemma DisconnectClosesUnusableHandle(env: Env, h: Handle, log: seq<OsCall>, path: string)
    requires !Listed(env, path) || !h.isOpen
    ensures DisconnectSpec(env, Some(h), log, path) == CloseSpec(env, Some(h), log)
  {
  }

  /**
   * A handle that reports closed survives the cleanup: closeSerialPort only
   * drops open handles, so the stale handle stays registered.
   */
  lemma DisconnectKeepsStaleHandle(env: Env, h: Handle, log: seq<OsCall>, path: string)
    requires !h.isOpen
    ensures DisconnectSpec(env, Some(h), log, path) == Step(Some(h), log, ())
  {
  }

  /** An open, listed handle gets the empty liveness write; if that throws, the handle is closed and dropped. */
  lemma DisconnectProbesLiveness(env: Env, h: Handle, log: seq<OsCall>, path: string)
    requires Listed(env, path) && h.isOpen
    ensures DisconnectSpec(env, Some(h), log, path) ==
      if env.emptyWriteThrows then Step(None, log + [Write("", false), Close(env.closeError.None?)], ())
      else Step(Some(h), log + [Write("", true)], ())
  {
  }

  /** The cleanup never opens and never adds a handle; what is left is the old handle or nothing. */
  lemma DisconnectOnlyRemoves(env: Env, port: Option<Handle>, log: seq<OsCall>, path: string)
    ensures var d := DisconnectSpec(env, port, log, path);
      && (d.port == port || d.port.None?)
      && |log| <= |d.log| && d.log[..|log|] == log
      && forall k | |log| <= k < |d.log| :: !d.log[k].Open? && !d.log[k].Drain?
  {
  }

  // ---------------------------------------------------------------- getSerialPort

  /** A result handle is the registered one and reports open. */
  lemma GetYieldsOpenHandle(env: Env, port: Option<Handle>, log: seq<OsCall>, cfg: Config)
    requires GetSpec(env, port, log, cfg).result.Success?
    ensures var g := GetSpec(env, port, log, cfg); g.port == Some(g.result.value) && g.result.value.isOpen
  {
  }

  /**
   * A live handle is reused: no open call, only the liveness write. Its path
   * is not compared with the configured one, so a handle for another path is
   * returned as well.
   */
  lemma GetReusesLiveHandle(env: Env, h: Handle, log: seq<OsCall>, cfg: Config)
    requires Listed(env, PortPath(cfg.portSetting)) && h.isOpen && !env.emptyWriteThrows
    ensures GetSpec(env, Some(h), log, cfg) == Step(Some(h), log + [Write("", true)], Success(h))
  {
  }

  /** Idempotent connect: a second getSerialPort on a healthy port returns the same handle without opening. */
  lemma ConnectTwiceOpensOnce(env1: Env, env2: Env, port: Option<Handle>, log: seq<OsCall>, cfg: Config)
    requires GetSpec(env1, port, log, cfg).result.Success?
    requires Listed(env2, PortPath(cfg.portSetting)) && !env2.emptyWriteThrows
    ensures var g1 := GetSpec(env1, port, log, cfg);
      var g2 := GetSpec(env2, g1.port, g1.log, cfg);
      g2 == Step(g1.port, g1.log + [Write("", true)], g1.result)
  {
    var g1 := GetSpec(env1, port, log, cfg);
    GetYieldsOpenHandle(env1, port, log, cfg);
    GetReusesLiveHandle(env2, g1.result.value, g1.log, cfg);
  }

  /**
   * An unlisted port: getSerialPort throws "Port <p> is not available: …"
   * and opens nothing; the only change is the cleanup's close of an open handle.
   */
  lemma GetUnlistedOpensNothing(env: Env, port: Option<Handle>, log: seq<OsCall>, cfg: Config)
    requires !Listed(env, PortPath(cfg.portSetting))
    ensures var path := PortPath(cfg.portSetting);
      var c := CloseSpec(env, port, log);
      GetSpec(env, port, log, cfg) ==
        Step(c.port, c.log, Failure(Error(NotAvailableMessage(path, CheckPortStatus(env, None, path).error))))
  {
  }

  /** With the device listed, a stale handle is replaced by a freshly opened one (one open call). */
  lemma GetReplacesStaleHandle(env: Env, h: Handle, log: seq<OsCall>, cfg: Config)
    requires Listed(env, PortPath(cfg.portSetting)) && !h.isOpen && env.openError.None?
    ensures var reopened := Handle(PortPath(cfg.portSetting), cfg.baudRate, true);
      GetSpec(env, Some(h), log, cfg) == Step(Some(reopened), log + [Open(reopened.path, cfg.baudRate, true)], Success(reopened))
  {
  }

  /** With the device unlisted, the stale handle is neither replaced nor dropped. */
  lemma GetKeepsStaleHandleWhenUnlisted(env: Env, h: Handle, log: seq<OsCall>, cfg: Config)
    requires !Listed(env, PortPath(cfg.portSetting)) && !h.isOpen
    ensures GetSpec(env, Some(h), log, cfg).port == Some(h)
    ensures GetSpec(env, Some(h), log, cfg).result.Failure?
  {
  }

  /**
   * Whenever getSerialPort attempts the open, that is, unless a live handle
   * is reused, a failed open leaves no handle. A message naming "Access
   * denied" or "in use" becomes "Port <p> is in use by another application";
   * any other failure is rethrown as it was. A handle whose liveness write
   * throws is closed before the open.
   */
  lemma GetOpenFailureLeavesNoHandle(env: Env, port: Option<Handle>, log: seq<OsCall>, cfg: Config)
    requires Listed(env, PortPath(cfg.portSetting)) && env.openError.Some?
    requires !(port.Some? && port.value.isOpen && !env.emptyWriteThrows)
    ensures var path := PortPath(cfg.portSetting);
      var e := env.openError.value;
      var g := GetSpec(env, port, log, cfg);
      && g.port == None
      && g.result == Failure(if IsBusy(Text(e)) then Error(BusyMessage(path)) else e)
      && (port.None? || !port.value.isOpen ==> g.log == log + [Open(path, cfg.baudRate, false)])
      && (port.Some? && port.value.isOpen ==>
            g.log == log + [Write("", false), Close(env.closeError.None?), Open(path, cfg.baudRate, false)])
  {
  }

  /** An open refused with "Access denied" on the default port is reported as busy, and no handle remains. */
  lemma AccessDeniedIsBusy(env: Env, cfg: Config)
    requires cfg.portSetting == None && Listed(env, DefaultPath)
    requires env.openError == Some(Error("Access denied"))
    ensures GetSpec(env, None, [], cfg) ==
      Step(None, [Open("COM6", cfg.baudRate, false)], Failure(Error(BusyMessage("COM6"))))
  {
    assert PortPath(cfg.portSetting) == "COM6";
    GetOpenFailureLeavesNoHandle(env, None, [], cfg);
    assert Includes("Access denied", "Access denied");
  }

  // ---------------------------------------------------------------- sendCommand

  /** The command is written only through a handle that reports open; otherwise nothing is written. */
  lemma WriteOnlyWhenOpen(env: Env, got: Step<Result<Handle, Exception>>, command: string)
    ensures var w := WriteSpec(env, got, command);
      w.log != got.log ==> got.result.Success? && got.result.value.isOpen && w.log == got.log + WriteCalls(env, command)
    ensures got.result.Success? && !got.result.value.isOpen ==>
      WriteSpec(env, got, command) == Step(got.port, got.log, Some(Error("Port is not open")))
  {
  }

  /**
   * A failure is rethrown unchanged: it is the error of getSerialPort, the
   * write or the drain, and a second cleanup pass follows it.
   */
  lemma SendRethrowsAfterCleanup(env: Env, port: Option<Handle>, log: seq<OsCall>, cfg: Config, command: string)
    requires SendSpec(env, port, log, cfg, command).result.Some?
    ensures var path := PortPath(cfg.portSetting);
      var d := DisconnectSpec(env, port, log, path);
      var g := GetSpec(env, d.port, d.log, cfg);
      var s := SendSpec(env, port, log, cfg, command);
      var w := WriteSpec(env, g, command);
      && s.result == w.result
      && (g.result.Failure? ==> s.result == Some(g.result.error))
      && (g.result.Success? ==> s.result == env.writeError || (env.writeError.None? && s.result == env.drainError))
      && s == Step(DisconnectSpec(env, w.port, w.log, path).port, DisconnectSpec(env, w.port, w.log, path).log, w.result)
  {
    var path := PortPath(cfg.portSetting);
    var d := DisconnectSpec(env, port, log, path);
    if GetSpec(env, d.port, d.log, cfg).result.Success? {
      GetYieldsOpenHandle(env, d.port, d.log, cfg);
    }
  }

  /** An unlisted port: sendCommand throws "not available" and neither opens nor writes anything. */
  lemma SendUnlistedWritesNothing(env: Env, port: Option<Handle>, log: seq<OsCall>, cfg: Config, command: string)
    requires !Listed(env, PortPath(cfg.portSetting))
    ensures var path := PortPath(cfg.portSetting);
      var s := SendSpec(env, port, log, cfg, command);
      && s.result == Some(Error(NotAvailableMessage(path, CheckPortStatus(env, None, path).error)))
      && |log| <= |s.log| && s.log[..|log|] == log
      && forall k | |log| <= k < |s.log| :: s.log[k].Close?
  {
    var path := PortPath(cfg.portSetting);
    var c := CloseSpec(env, port, log);
    assert DisconnectSpec(env, port, log, path) == c;
    GetUnlistedOpensNothing(env, c.port, c.log, cfg);
    assert CloseSpec(env, c.port, c.log) == c;
  }

  // ---------------------------------------------------------------- a session of commands

  /** Every operating-system answer is the good one for `path`. */
  predicate Healthy(env: Env, path: string)
  {
    Listed(env, path) && env.openError.None? && !env.emptyWriteThrows && env.writeError.None? && env.drainError.None?
  }

  /** Send `commands` one after another, as successive POSTs of the servo route do. */
  function SendAll(env: Env, port: Option<Handle>, log: seq<OsCall>, cfg: Config, commands: seq<string>): Step<seq<Option<Exception>>>
    decreases |commands|
  {
    if commands == [] then
      Step(port, log, [])
    else
      var s := SendSpec(env, port, log, cfg, commands[0]);
      var rest := SendAll(env, s.port, s.log, cfg, commands[1..]);
      Step(rest.port, rest.log, [s.result] + rest.result)
  }

  /** The number of open calls in a log. */
  function Opens(calls: seq<OsCall>): nat
  {
    if calls == [] then 0 else (if calls[0].Open? then 1 else 0) + Opens(calls[1..])
  }

  lemma {:induction false} OpensAppend(a: seq<OsCall>, b: seq<OsCall>)
    ensures Opens(a + b) == Opens(a) + Opens(b)
  {
    if a != [] {
      OpensAppend(a[1..], b);
      assert (a + b)[1..] == a[1..] + b;
    } else {
      assert a + b == b;
    }
  }

  lemma {:induction false} NoOpens(calls: seq<OsCall>)
    requires forall k | 0 <= k < |calls| :: !calls[k].Open?
    ensures Opens(calls) == 0
  {
    if calls != [] {
      NoOpens(calls[1..]);
    }
  }

  /** A log that extends `log + first` counts the opens of `first` plus those after it. */
  lemma OpensAfter(log: seq<OsCall>, first: seq<OsCall>, full: seq<OsCall>)
    requires |log + first| <= |full| && full[..|log + first|] == log + first
    ensures |log| <= |full| && full[..|log|] == log
    ensures Opens(full[|log|..]) == Opens(first) + Opens(full[|log + first|..])
  {
    var mid := log + first;
    assert full[..|log|] == mid[..|log|] == log;
    assert full[|log|..|mid|] == mid[|log|..] == first;
    assert full[|log|..] == full[|log|..|mid|] + full[|mid|..];
    OpensAppend(first, full[|mid|..]);
  }

  /** One command over a live handle on a healthy port: two liveness writes, the command and the drain. */
  lemma SendOverLiveHandle(env: Env, h: Handle, log: seq<OsCall>, cfg: Config, command: string)
    requires Healthy(env, PortPath(cfg.portSetting)) && h.isOpen
    ensures SendSpec(env, Some(h), log, cfg, command) ==
      Step(Some(h), log + [Write("", true), Write("", true), Write(command, true), Drain(true)], None)
  {
    var path := PortPath(cfg.portSetting);
    DisconnectProbesLiveness(env, h, log, path);
    GetReusesLiveHandle(env, h, log + [Write("", true)], cfg);
  }

  /** One command with no handle on a healthy port: one open, the command and the drain. */
  lemma SendWithoutHandle(env: Env, log: seq<OsCall>, cfg: Config, command: string)
    requires Healthy(env, PortPath(cfg.portSetting))
    ensures var h := Handle(PortPath(cfg.portSetting), cfg.baudRate, true);
      SendSpec(env, None, log, cfg, command) ==
        Step(Some(h), log + [Open(h.path, cfg.baudRate, true), Write(command, true), Drain(true)], None)
  {
  }

  /** Commands over a live handle on a healthy port all succeed, keep the handle and never open. */
  lemma {:induction false} LiveSessionNeverOpens(env: Env, h: Handle, log: seq<OsCall>, cfg: Config, commands: seq<string>)
    requires Healthy(env, PortPath(cfg.portSetting)) && h.isOpen
    ensures var s := SendAll(env, Some(h), log, cfg, commands);
      && s.port == Some(h)
      && |s.result| == |commands| && (forall i | 0 <= i < |s.result| :: s.result[i] == None)
      && |log| <= |s.log| && s.log[..|log|] == log
      && Opens(s.log[|log|..]) == 0
    decreases |commands|
  {
    var s := SendAll(env, Some(h), log, cfg, commands);
    if commands == [] {
      assert s.log[|log|..] == [];
    } else {
      SendOverLiveHandle(env, h, log, cfg, commands[0]);
      var traffic := [Write("", true), Write("", true), Write(commands[0], true), Drain(true)];
      var mid := log + traffic;
      LiveSessionNeverOpens(env, h, mid, cfg, commands[1..]);
      var rest := SendAll(env, Some(h), mid, cfg, commands[1..]);
      assert s.log == rest.log && s.result == [None] + rest.result;
      OpensAfter(log, traffic, rest.log);
      NoOpens(traffic);
    }
  }

  /** A session of one or more commands that starts without a handle, on a healthy port, opens exactly once. */
  lemma SessionOpensOnce(env: Env, log: seq<OsCall>, cfg: Config, commands: seq<string>)
    requires Healthy(env, PortPath(cfg.portSetting)) && commands != []
    ensures var s := SendAll(env, None, log, cfg, commands);
      && s.port == Some(Handle(PortPath(cfg.portSetting), cfg.baudRate, true))
      && (forall i | 0 <= i < |s.result| :: s.result[i] == None)
      && |log| <= |s.log| && s.log[..|log|] == log
      && Opens(s.log[|log|..]) == 1
  {
    var h := Handle(PortPath(cfg.portSetting), cfg.baudRate, true);
    SendWithoutHandle(env, log, cfg, commands[0]);
    var first := [Open(h.path, cfg.baudRate, true), Write(commands[0], true), Drain(true)];
    var mid := log + first;
    LiveSessionNeverOpens(env, h, mid, cfg, commands[1..]);
    var rest := SendAll(env, Some(h), mid, cfg, commands[1..]);
    var s := SendAll(env, None, log, cfg, commands);
    assert s.log == rest.log && s.result == [None] + rest.result;
    OpensAfter(log, first, rest.log);
    NoOpens(first[1..]);
  }
}
