/** The two push events the monitoring pages consume: a periodic
    `live_status` and a discrete `new_alert` (a raw alert payload). */
module SocketEvents {
  import opened Js
  import opened AlertNormalizer

  /** A `live_status` payload: its `session_id`, its other top-level
      properties, and the `alerts` list when the payload carries one. */
  datatype StatusEvent = StatusEvent(sessionId: string, fields: PayloadFields, alerts: Option<seq<RawAlert>>)

  /** The payload's properties other than `alerts`, which `StatusEvent`
      carries on its own. */
  type PayloadFields = m: map<string, JsValue> | "alerts" !in m witness map[]

  /** The payload's own properties, `session_id` among them: what the
      payload's own `session_id` says always wins. */
  function StatusFields(ev: StatusEvent): (m: map<string, JsValue>)
    ensures m.Keys == ev.fields.Keys + {"session_id"}
    ensures Get(m, "session_id") == Str(ev.sessionId)
    ensures "alerts" !in m
  {
    ev.fields["session_id" := Str(ev.sessionId)]
  }

  /** The object key `prev[alert.session_id]` uses: undefined and null become
      the strings "undefined" and "null". */
  function AlertSessionKey(a: RawAlert): (k: string)
    ensures a.sessionId.Present? ==> k == a.sessionId.value
    ensures k == "undefined" <==> a.sessionId in {Missing, Present("undefined")}
    ensures k == "null" <==> a.sessionId in {Null, Present("null")}
  {
    match a.sessionId
    case Missing => "undefined"
    case Null => "null"
    case Present(s) => s
  }

  /** `alert.session_id === sessionId`: strict, so only a present, equal
      string matches. */
  predicate AlertFor(a: RawAlert, sessionId: string): (b: bool)
    ensures b ==> AlertSessionKey(a) == sessionId
    ensures !a.sessionId.Present? ==> !b
  {
    a.sessionId == Present(sessionId)
  }
}
