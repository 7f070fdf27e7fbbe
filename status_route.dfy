/** GET of app/api/servo/status/route.ts: report the probe for the configured port. */
module StatusRoute {
  import opened Wrappers
  import opened Serial
  import opened Http

  /** The probe's fields as JSON; `error` only when the probe set one. */
  function StatusFields(s: PortStatus): map<string, Json>
  {
    map["available" := JBool(s.available), "open" := JBool(s.open), "inUse" := JBool(s.inUse)]
      + (if s.error.Some? then map["error" := JStr(s.error.value)] else map[])
  }

  /** The handler: `{ success: true, port, ...status }`, a pure read of the manager. */
  function Get(m: SerialManager, env: Env, portSetting: Option<string>): (r: Response)
    reads m
    ensures var path := PortPath(portSetting);
      && r.status == 200
      && "success" in r.body && r.body["success"] == JBool(true)
      && "port" in r.body && r.body["port"] == JStr(path)
    ensures var s := CheckPortStatus(env, m.port, PortPath(portSetting));
      && "available" in r.body && r.body["available"] == JBool(s.available)
      && "open" in r.body && r.body["open"] == JBool(s.open)
      && "inUse" in r.body && r.body["inUse"] == JBool(s.open)
      && ("error" in r.body <==> s.error.Some?)
      && (s.error.Some? ==> r.body["error"] == JStr(s.error.value))
  {
    var path := PortPath(portSetting);
    var status := CheckPortStatus(env, m.port, path);
    Response(200, map["success" := JBool(true), "port" := JStr(path)] + StatusFields(status))
  }
}
