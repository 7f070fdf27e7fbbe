/** POST of app/api/servo/disconnect/route.ts: close the port if it is open. */
module DisconnectRoute {
  import opened Serial
  import opened Http

  /** The handler; the post-close probe of the source is computed and ignored, as there. */
  method Post(m: SerialManager, env: Env, cfg: Config) returns (r: Response)
    requires m.Valid()
    modifies m
    ensures m.Valid()
    ensures var path := PortPath(cfg.portSetting);
      !CheckPortStatus(env, old(m.port), path).open ==>
        && r == MessageResponse("Port " + path + " is already closed", path)
        && "wasOpen" !in r.body
        && m.port == old(m.port) && m.calls == old(m.calls)
    ensures var path := PortPath(cfg.portSetting);
      var c := CloseSpec(env, old(m.port), old(m.calls));
      CheckPortStatus(env, old(m.port), path).open ==>
        && m.port == c.port && m.calls == c.log && m.port.None?
        && r == Response(200, map["success" := JBool(true), "message" := JStr("Port " + path + " disconnected successfully"),
                                  "port" := JStr(path), "wasOpen" := JBool(true)])
  {
    var path := PortPath(cfg.portSetting);
    var status := CheckPortStatus(env, m.port, path);
    if !status.open {
      return MessageResponse("Port " + path + " is already closed", path);
    }
    m.CloseSerialPort(env);
    var newStatus := CheckPortStatus(env, m.port, path);
    r := Response(200, map["success" := JBool(true), "message" := JStr("Port " + path + " disconnected successfully"),
                           "port" := JStr(path), "wasOpen" := JBool(status.open)]);
  }
}
