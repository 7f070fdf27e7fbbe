# Servo serial-port manager, modelled in Dafny

This project models the serial-connection manager of a small web app. The app
moves a hobby servo by sending one-character commands over a serial link to a
microcontroller. The manager (`lib/serial.ts`) owns the one process-wide port
handle `port`. Around it sit a read-only status probe (`checkPortStatus`), a
stale-handle cleanup (`disconnectIfNeeded`), open-with-reuse (`getSerialPort`),
a guarded command write (`sendCommand`) and a best-effort close
(`closeSerialPort`). Four HTTP route handlers drive it: servo command, connect,
disconnect and status.

Files:

- `wrappers.dfy`: `Option` and `Result`.
- `serial.dfy` (module `Serial`): the data model and `CheckPortStatus`. Each
  operation of `lib/serial.ts` appears twice. It is a pure step function
  (`CloseSpec`, `DisconnectSpec`, `GetSpec`, `WriteSpec`, `SendSpec`) from the
  handle and the log of OS calls to the new handle, the new log and the result.
  It is also a method of class `SerialManager`, whose field `port` is the
  module-level handle. Each method updates the handle step by step, as the
  source does, and is proved to agree with its step function.
- `serial_properties.dfy` (module `SerialProperties`): what the source promises,
  proved as lemmas about the step functions.
- `http.dfy`: JSON values and responses.
- `servo_route.dfy`, `connect_route.dfy`, `disconnect_route.dfy`, `status_route.dfy`:
  the four handlers. The first three are methods that call the manager. Status
  is a function that only reads it.

How the operating system is modelled: an `Env` value holds what the OS answers
during one operation. That is the device enumeration or the exception it
throws, plus the outcome of open, close, the empty liveness write, the command
write and the drain. Each call that reaches the device is appended to the ghost
log `SerialManager.calls` as `Open`/`Close`/`Write`/`Drain` with its outcome.
This lets contracts say "no open was attempted" or "nothing was written". The
class invariant `Valid()` says that a registered handle was opened successfully
by this process, and that no close call came after that open. It is defined
through `OpenedSinceClose` on the log.

The configured path is `PortPath(setting)`, that is `ARDUINO_PORT || "COM6"`.
The baud rate is a given integer.

Behaviour of the code that the model follows as written:

- The probe's error reads `Port <path> not found`.
- `closeSerialPort` leaves a handle that reports closed in place. Only an open
  handle is closed and dropped.
- The cleanup therefore never removes a stale handle. It is dropped only when a
  new handle overwrites it (lib/serial.ts:122) or by the close listener.
- There is no lock. Mutual exclusion between requests is not a property of this
  code, and it is not claimed.
- The "Port is not open" guard of `sendCommand` is modelled. In the model it
  cannot fire, because `getSerialPort` only returns open handles
  (`GetYieldsOpenHandle`). That rests on treating `open()` as an awaited call
  that succeeds or fails (see the `Env` line under "## Left out"). In the
  program, whether the guard can fire depends on how `open()` settles.
- The forced close of lib/serial.ts:116-119 cannot be reached.
  `SerialManager.GetSerialPort` proves this with `assert false` in that branch.
- A live handle is reused without comparing its path with the configured one.
  The probe never compares them either.

## Model

| member | source | states |
|---|---|---|
| `Serial.AnyHasPath` | lib/serial.ts:27-29 | true exactly when some enumerated device has the queried path (`ports.some`) |
| `Serial.Includes` | lib/serial.ts:152 | `s.includes(sub)`: true exactly when `sub` occurs at some position of `s` |
| `Serial.PortPath` | lib/serial.ts:96 | the configured path, or "COM6" when the setting is unset or empty; never empty |
| `Serial.CheckPortStatus` | lib/serial.ts:17-63 | inUse equals open; open implies available; available exactly when the listing succeeds and lists the path; when available there is no error and open is the handle's `isOpen` (false with no handle); when unavailable there is always an error |
| `Serial.OpenedSinceCloseExtends` | lib/serial.ts:143-158 | calls other than close keep a successful open standing, so the invariant "the registered handle was opened and not since closed" survives writes and drains |
| `Serial.SerialManager.constructor` | lib/serial.ts:5 | starts with no handle and an empty OS log |
| `Serial.SerialManager.CloseSerialPort` | lib/serial.ts:194-204 | new handle and log are those of `CloseSpec`; keeps `Valid()` |
| `Serial.SerialManager.DisconnectIfNeeded` | lib/serial.ts:68-93 | new handle and log are those of `DisconnectSpec`; keeps `Valid()` |
| `Serial.SerialManager.GetSerialPort` | lib/serial.ts:95-160 | new handle, log and result are those of `GetSpec`; keeps `Valid()`; the close at lines 116-119 is proved unreachable |
| `Serial.SerialManager.SendCommand` | lib/serial.ts:162-192 | new handle, log and rethrown exception are those of `SendSpec`; keeps `Valid()` |
| `Serial.SerialManager.OnClose` | lib/serial.ts:138-141 | the close listener clears the handle and makes no OS call |
| `Serial.SerialManager.OnError` | lib/serial.ts:129-136 | an error naming "Access denied" or "in use" runs `closeSerialPort`; any other error changes nothing |
| `SerialProperties.UnlistedPortIsUnavailable` | lib/serial.ts:29-38 | an unlisted path gives available, open and inUse false with error "Port <path> not found" |
| `SerialProperties.ListingFailureIsUnavailable` | lib/serial.ts:55-62 | a failing enumeration gives all-false with the thrown message, or "Unknown error" for a non-Error |
| `SerialProperties.ProbeIgnoresHandlePath` | lib/serial.ts:41-48 | with the path listed, any handle, whatever its path, gives available true and open = inUse = its `isOpen` |
| `SerialProperties.NoDevicesMeansNotFound` | lib/serial.ts:29-38 | an empty device list gives "Port COM6 not found" for the default path |
| `SerialProperties.CloseDropsOpenHandle` | lib/serial.ts:195-203 | an open handle is dropped after exactly one close call, whether that call succeeded or failed |
| `SerialProperties.CloseKeepsClosedHandle` | lib/serial.ts:195 | an absent handle, or one that reports closed, is left as it is and nothing is called |
| `SerialProperties.DisconnectWithoutHandle` | lib/serial.ts:69 | with no handle the cleanup does nothing |
| `SerialProperties.DisconnectClosesUnusableHandle` | lib/serial.ts:74-76 | a handle whose port is unlisted or reports closed is handed to `closeSerialPort` |
| `SerialProperties.DisconnectKeepsStaleHandle` | lib/serial.ts:74-76 | a handle that reports closed stays registered after the cleanup |
| `SerialProperties.DisconnectProbesLiveness` | lib/serial.ts:77-85 | an open, listed handle gets one empty write; if it throws, the handle is closed and dropped, otherwise it is kept |
| `SerialProperties.DisconnectOnlyRemoves` | lib/serial.ts:68-93 | the cleanup keeps the handle or removes it, only appends to the log, and never opens or drains |
| `SerialProperties.GetYieldsOpenHandle` | lib/serial.ts:103-105 | a returned handle is the registered one and reports open |
| `SerialProperties.GetReusesLiveHandle` | lib/serial.ts:100-105 | a live handle on a listed port is returned as is, with no open call, only the liveness write |
| `SerialProperties.ConnectTwiceOpensOnce` | lib/serial.ts:100-105 | after a successful getSerialPort, a second one on a listed port whose liveness write succeeds returns the same handle and opens nothing |
| `SerialProperties.GetUnlistedOpensNothing` | lib/serial.ts:110-114 | an unlisted port throws "Port <p> is not available: <probe error>"; no handle is created and no open is attempted |
| `SerialProperties.GetReplacesStaleHandle` | lib/serial.ts:121-146 | with the port listed, a stale handle is replaced by a freshly opened one after exactly one open call |
| `SerialProperties.GetKeepsStaleHandleWhenUnlisted` | lib/serial.ts:110-114 | with the port unlisted, a stale handle is neither replaced nor dropped, and the call fails |
| `SerialProperties.GetOpenFailureLeavesNoHandle` | lib/serial.ts:99-159 | whenever the open is attempted (no live handle to reuse, including an open handle whose liveness write throws and is closed first), a failed open leaves no handle; "Access denied"/"in use" become "Port <p> is in use by another application"; other errors are rethrown unchanged; the exact OS calls of both cases |
| `SerialProperties.AccessDeniedIsBusy` | lib/serial.ts:152-154 | an "Access denied" open on COM6 gives "Port COM6 is in use by another application" and leaves no handle |
| `SerialProperties.WriteOnlyWhenOpen` | lib/serial.ts:170-175 | the command is written only through a handle that reports open; a closed one throws "Port is not open" and writes nothing |
| `SerialProperties.SendRethrowsAfterCleanup` | lib/serial.ts:185-191 | a failure is the error of getSerialPort, the write or the drain, unchanged, and one more cleanup pass follows it |
| `SerialProperties.SendUnlistedWritesNothing` | lib/serial.ts:166-168 | with the port unlisted, sendCommand throws "not available", and its only OS calls are closes: no open, no write |
| `SerialProperties.SendOverLiveHandle` | lib/serial.ts:162-184 | on a healthy port with a live handle, one command makes two liveness writes, the command write and one drain, and succeeds |
| `SerialProperties.SendWithoutHandle` | lib/serial.ts:162-184 | on a healthy port with no handle, one command opens once, writes and drains, and leaves the new handle open |
| `SerialProperties.LiveSessionNeverOpens` | lib/serial.ts:100-105 | any number of commands over a live handle on a healthy port all succeed, keep the handle and make no open call |
| `SerialProperties.SessionOpensOnce` | lib/serial.ts:95-146 | a session of one or more commands that starts with no handle, on a healthy port, makes exactly one open call and ends with the port open |
| `Http.PropertyKey` | app/api/servo/route.ts:17 | the key JavaScript converts a direction to: a string is itself; an object fails with "Cannot convert object to primitive value" exactly when it has an own "toString" key; an array fails exactly when one of its elements does; every failure carries that message |
| `ServoRoute.CommandFor` | app/api/servo/route.ts:10-18 | fullleft→F, left→L, right→R, fullright→G; the lookup depends only on the key, a command exists exactly when the key is one of those four names, and every command is one character |
| `ServoRoute.CommandForInjective` | app/api/servo/route.ts:10-17 | two keys that map to the same command are the same key |
| `ServoRoute.SingletonArrayActsAsName` | app/api/servo/route.ts:17 | a one-element array holding a name converts to that name, so `["left"]` finds "L" |
| `ServoRoute.ScalarsFindNoCommand` | app/api/servo/route.ts:17-18 | numbers, booleans, null and objects without an own "toString" convert to a key, but never one that finds a command |
| `ServoRoute.OwnToStringThrows` | app/api/servo/route.ts:17 | an object with an own "toString" key, alone or inside an array, makes the key conversion throw "Cannot convert object to primitive value" |
| `ServoRoute.Post` | app/api/servo/route.ts:4-40 | a body error gives 500; a direction whose key conversion throws gives 500 with the TypeError's message; a key naming no direction gives 400 "Invalid direction"; none of these calls the manager; a valid key runs exactly one sendCommand, then answers `{success:true, direction}` or 500 with the error's message |
| `ConnectRoute.Post` | app/api/servo/connect/route.ts:4-47 | open and available gives "already open" with no getSerialPort; otherwise exactly one getSerialPort, then "opened successfully" exactly when the re-probe, over its own device enumeration, says open, else 500 "Failed to open port <p>"; a thrown error gives 500 with its message |
| `ConnectRoute.OpenedPortProbesOpen` | app/api/servo/connect/route.ts:20-36 | after a successful getSerialPort the re-probe reports open exactly when its own enumeration still lists the path; with an unchanged device list it always does, so "Failed to open port" needs the device to vanish between the two enumerations |
| `DisconnectRoute.Post` | app/api/servo/disconnect/route.ts:4-41 | not open gives "already closed" with no `wasOpen` and no close; otherwise one closeSerialPort leaves no handle, and the answer is success with `wasOpen: true` whatever the post-close probe says |
| `StatusRoute.Get` | app/api/servo/status/route.ts:4-23 | always 200 and success true, with the configured port; available, open and inUse are the probe's, and `error` is present exactly when the probe reports one; the handle is only read |

## Left out

- Loading the serial library module (lib/serial.ts:7-12, 23, 107) is not modelled, and neither is its failure. As a result `checkPortStatus` never throws. The catch of `disconnectIfNeeded` (lib/serial.ts:87-91) and the HTTP 500 branches of the status and disconnect handlers cannot be reached in the model.
- The serial library itself is represented only by its answers in `Env`. One `Env` holds for a whole serial-manager operation: every device enumeration inside one call of `lib/serial.ts` gets the same answer, and so does every empty liveness write. A device that disappears between the probes of one `getSerialPort` or `sendCommand` is not modelled. A consequence is that, in the model, the cleanup after a failed write (lib/serial.ts:187-189) never drops a reused live handle, since its liveness write succeeds as the first one did. The connect handler's re-probe (app/api/servo/connect/route.ts:20) is the exception: it is given its own enumeration. The handler's first probe (line 8) shares the answer of the `getSerialPort` that follows it. How `open()` settles is not modelled: the model treats it as an awaited call that succeeds or fails.
- The asynchronous "error" and "close" listeners are modelled only as explicit steps between operations (`OnClose`, `OnError`). Interleaving with an operation in flight is not modelled, and neither are concurrent HTTP requests. No lock serializes requests, so nothing keeps two opens from being in flight at once.
- The handle is a value. Object identity and aliasing are not modelled. The OS may flip `isOpen` to false behind the manager's back; that is not a step of the model. Every property is instead stated for any registered handle, stale ones included.
- `GetSpec` has no counterpart to the forced close of lib/serial.ts:116-119, because the method proves that branch unreachable.
- Reading environment variables, `parseInt` of the baud rate and console logging are left out. The path setting and the baud rate are inputs.
- The servo handler receives the `direction` property of the request body already extracted, or the exception that parsing or destructuring threw. JSON parsing is not modelled. Prototype-chain keys of `commandMap` are not modelled: the map has exactly four keys. JSON numbers are integers in the model. A fractional or exponent numeral converts to a key holding a digit, '.', 'e' or a sign, or to "Infinity"/"NaN", and none of those names a direction; that conversion is not modelled.
- The React page, the layout and the bundler configuration hold no manager logic and are not part of this model.
