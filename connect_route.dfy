/** POST of app/api/servo/connect/route.ts: make sure the configured port is open. */
module ConnectRoute {
  import opened Wrappers
  import opened Serial
  import opened Http

  /**
   * The handler; the port path is the configured one, "COM6" when unset.
   * The re-probe after getSerialPort enumerates the devices afresh:
   * `relisting` is what that second enumeration answers.
   */
  method Post(m: SerialManager, env: Env, cfg: Config, relisting: Result<seq<PortInfo>, Exception>) returns (r: Response)
    requires m.Valid()
    modifies m
    ensures m.Valid()
    ensures var path := PortPath(cfg.portSetting);
      var first := CheckPortStatus(env, old(m.port), path);
      first.open && first.available ==>
        r == MessageResponse("Port " + path + " is already open", path) && m.port == old(m.port) && m.calls == old(m.calls)
    ensures var path := PortPath(cfg.portSetting);
      var first := CheckPortStatus(env, old(m.port), path);
      var g := GetSpec(env, old(m.port), old(m.calls), cfg);
      !(first.open && first.available) ==>
        && m.port == g.port && m.calls == g.log
        && r == match g.result
                case Failure(e) => ErrorResponse(500, MessageOr(e, "Failed to connect"))
                case Success(_) =>
                  if CheckPortStatus(env.(listing := relisting), g.port, path).open then MessageResponse("Port " + path + " opened successfully", path)
                  else ErrorResponse(500, "Failed to open port " + path)
  {
    var path := PortPath(cfg.portSetting);
    var status := CheckPortStatus(env, m.port, path);
    if status.open && status.available {
      return MessageResponse("Port " + path + " is already open", path);
    }
    var got := m.GetSerialPort(env, cfg);
    if got.Failure? {
      return ErrorResponse(500, MessageOr(got.error, "Failed to connect"));
    }
    var newStatus := CheckPortStatus(env.(listing := relisting), m.port, path);
    if newStatus.open {
      r := MessageResponse("Port " + path + " opened successfully", path);
    } else {
      r := ErrorResponse(500, "Failed to open port " + path);
    }
  }

  /**
   * After a successful getSerialPort the re-probe reports the port open
   * exactly when its own enumeration still lists the path; with an unchanged
   * device list it always does, so "Failed to open port" needs the device to
   * vanish between the two enumerations.
   */
  lemma OpenedPortProbesOpen(env: Env, relisting: Result<seq<PortInfo>, Exception>, port: Option<Handle>, log: seq<OsCall>, cfg: Config)
    requires GetSpec(env, port, log, cfg).result.Success?
    ensures var again := env.(listing := relisting);
      CheckPortStatus(again, GetSpec(env, port, log, cfg).port, PortPath(cfg.portSetting)).open <==> Listed(again, PortPath(cfg.portSetting))
    ensures relisting == env.listing ==> CheckPortStatus(env, GetSpec(env, port, log, cfg).port, PortPath(cfg.portSetting)).open
  {
  }
}
