/** POST of app/api/servo/route.ts: move the servo by sending one command character. */
module ServoRoute {
  import opened Wrappers
  import opened Serial
  import opened Http

  /** Direction names to the single-character commands the microcontroller understands. */
  const CommandMap: map<string, string> := map["fullleft" := "F", "left" := "L", "right" := "R", "fullright" := "G"]

  /**
   * The key `commandMap[direction]` looks up, for the `direction` property of
   * the request body: "undefined" when it is missing, otherwise its property
   * key, or the TypeError that converting it throws.
   */
  function DirectionKey(direction: Option<Json>): Result<string, string>
  {
    match direction
    case None => Success("undefined")
    case Some(j) => PropertyKey(j)
  }

  /**
   * `commandMap[key]`: the lookup depends only on the key, so any value whose
   * key names one of the four directions finds a command, not only a string.
   */
  function CommandFor(key: string): (command: Option<string>)
    ensures key == "fullleft" ==> command == Some("F")
    ensures key == "left" ==> command == Some("L")
    ensures key == "right" ==> command == Some("R")
    ensures key == "fullright" ==> command == Some("G")
    ensures command.Some? <==> key in {"fullleft", "left", "right", "fullright"}
    ensures command.Some? ==> |command.value| == 1
  {
    if key in CommandMap then Some(CommandMap[key]) else None
  }

  /** No two keys share a command, so the command sent identifies the key asked for. */
  lemma CommandForInjective(k1: string, k2: string)
    requires CommandFor(k1).Some? && CommandFor(k1) == CommandFor(k2)
    ensures k1 == k2
  {
  }

  /** A one-element array holding a name is looked up as that name: `["left"]` finds "L". */
  lemma SingletonArrayActsAsName(name: string)
    ensures DirectionKey(Some(JArr([JStr(name)]))) == Success(name)
    ensures var k := DirectionKey(Some(JArr([JStr("left")]))); k.Success? && CommandFor(k.value) == Some("L")
  {
    var items := [JStr(name)];
    assert seq(|items|, i requires 0 <= i < |items| => if items[i].JNull? then Success("") else PropertyKey(items[i])) == [Success(name)];
    var left := [JStr("left")];
    assert seq(|left|, i requires 0 <= i < |left| => if left[i].JNull? then Success("") else PropertyKey(left[i])) == [Success("left")];
  }

  /** Numbers, booleans, null and objects without an own "toString" convert, but never name a direction. */
  lemma ScalarsFindNoCommand(j: Json)
    requires j.JNum? || j.JBool? || j.JNull? || (j.JObj? && "toString" !in j.fields)
    ensures DirectionKey(Some(j)).Success? && CommandFor(DirectionKey(Some(j)).value).None?
  {
    if j.JNum? {
      var key := Decimal(j.num);
      assert key[0] == '-' || '0' <= key[0] <= '9';
      assert key != "fullleft" && key != "left" && key != "right" && key != "fullright";
    }
  }

  /** An object with an own "toString" key cannot become a key, alone or inside an array: the lookup throws. */
  lemma OwnToStringThrows(fields: map<string, Json>)
    requires "toString" in fields
    ensures DirectionKey(Some(JObj(fields))) == Failure(NoPrimitiveMessage)
    ensures DirectionKey(Some(JArr([JStr("left"), JObj(fields)]))) == Failure(NoPrimitiveMessage)
  {
    var items := [JStr("left"), JObj(fields)];
    assert PropertyKey(items[1]).Failure?;
  }

  /**
   * The handler. `request` is the `direction` property of the parsed body,
   * or the exception that parsing or destructuring the body threw.
   */
  method Post(m: SerialManager, env: Env, cfg: Config, request: Result<Option<Json>, Exception>) returns (r: Response)
    requires m.Valid()
    modifies m
    ensures m.Valid()
    ensures request.Failure? ==>
      r == ErrorResponse(500, MessageOr(request.error, "Failed to control servo")) && m.port == old(m.port) && m.calls == old(m.calls)
    ensures request.Success? && DirectionKey(request.value).Failure? ==>
      r == ErrorResponse(500, DirectionKey(request.value).error) && m.port == old(m.port) && m.calls == old(m.calls)
    ensures request.Success? && DirectionKey(request.value).Success? && CommandFor(DirectionKey(request.value).value).None? ==>
      r == ErrorResponse(400, "Invalid direction") && m.port == old(m.port) && m.calls == old(m.calls)
    ensures request.Success? && DirectionKey(request.value).Success? && CommandFor(DirectionKey(request.value).value).Some? ==>
      var s := SendSpec(env, old(m.port), old(m.calls), cfg, CommandFor(DirectionKey(request.value).value).value);
      && m.port == s.port && m.calls == s.log
      && r == match s.result
              case None => Response(200, map["success" := JBool(true), "direction" := request.value.value])
              case Some(e) => ErrorResponse(500, MessageOr(e, "Failed to control servo"))
  {
    match request {
      case Failure(e) =>
        return ErrorResponse(500, MessageOr(e, "Failed to control servo"));
      case Success(direction) =>
        var key := DirectionKey(direction);
        if key.Failure? {
          return ErrorResponse(500, MessageOr(Error(key.error), "Failed to control servo"));
        }
        var command := CommandFor(key.value);
        if command.None? {
          return ErrorResponse(400, "Invalid direction");
        }
        var thrown := m.SendCommand(env, cfg, command.value);
        match thrown {
          case None =>
            r := Response(200, map["success" := JBool(true), "direction" := direction.value]);
          case Some(e) =>
            r := ErrorResponse(500, MessageOr(e, "Failed to control servo"));
        }
    }
  }
}
