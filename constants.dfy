/**
 * The enumerations every node shares: the connection status codes with
 * their names and editor badges, the CCU domains and the event names a
 * consumer can subscribe to.
 */
module Constants {
  import opened Js

  // statusTypes
  const BLANK := 0
  const CONNECTED := 1
  const NOTCONNECTED := 2
  const DISCONNECTED := 3
  const CONNECTING := 4
  const ERROR := 5
  const OK := 6

  /** `Object.values(statusTypes).includes(v)`. */
  predicate IsStatusCode(v: Value) {
    v.Num? && BLANK <= v.n <= OK
  }

  /** The key of `statusTypes` whose value is `code` (`find` gives undefined for no key). */
  function StatusName(code: int): (r: Value)
    ensures r.Undefined? <==> !(BLANK <= code <= OK)
  {
    if code == BLANK then Str("BLANK")
    else if code == CONNECTED then Str("CONNECTED")
    else if code == NOTCONNECTED then Str("NOTCONNECTED")
    else if code == DISCONNECTED then Str("DISCONNECTED")
    else if code == CONNECTING then Str("CONNECTING")
    else if code == ERROR then Str("ERROR")
    else if code == OK then Str("OK")
    else Undefined
  }

  function Badge(fill: string, shape: string, text: string): Value {
    Obj([Prop("fill", Str(fill)), Prop("shape", Str(shape)), Prop("text", Str(text))])
  }

  /** `statusMessages[code]`: the node badge for a status. */
  function StatusMessage(code: int): Value {
    if code == BLANK then Obj([])
    else if code == CONNECTED then Badge("green", "dot", "node-red:common.status.connected")
    else if code == NOTCONNECTED then Badge("yellow", "dot", "node-red:common.status.not-connected")
    else if code == DISCONNECTED then Badge("red", "ring", "node-red:common.status.disconnected")
    else if code == CONNECTING then Badge("yellow", "ring", "node-red:common.status.connecting")
    else if code == ERROR then Badge("red", "ring", "node-red:common.status.error")
    else if code == OK then Badge("green", "ring", "node-red:common.status.ok")
    else Undefined
  }

  // domainTypes
  const DEVICE := "device"
  const FUNCTION := "function"
  const ROOM := "room"
  const PROGRAM := "program"
  const SYSVAR := "sysvar"
  const VIRTDEV := "virtdev"

  // eventTypes
  const EVENT_ERROR := "error"
  const EVENT_STATUS := "status"
  const EVENT_EVENT := "event"
  const EVENT_VALUE := "value"
}
