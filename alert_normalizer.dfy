/** `normalizeAlert`: maps the two wire shapes of a cheating alert (legacy
    `behavior_type`/`description`/`confidence` in 0..100, current
    `event_type`/`details`/`confidence_level` in 0..1) to one canonical record,
    or to null when the payload is not an object. */
module AlertNormalizer {
  import opened Js

  /** `new Date().toISOString()`, passed in: an ISO timestamp is never empty. */
  type Timestamp = s: string | s != "" witness "1970-01-01T00:00:00.000Z"

  /** The alert properties the dashboard reads, each absent, null or of its
      wire type. */
  datatype RawAlert = RawAlert(
    sessionId: Field<string>,
    id: Field<string>,
    eventType: Field<string>,
    behaviorType: Field<string>,
    severity: Field<string>,
    confidenceLevel: Field<real>,
    confidence: Field<real>,
    details: Field<string>,
    description: Field<string>,
    detectedAt: Field<string>,
    createdAt: Field<string>)

  /** What a socket or a fetch can hand over. An array is an object without
      any of the alert properties, so it is an `ObjectPayload` whose fields are
      all `Missing`. */
  datatype Payload =
    | UndefinedPayload
    | NullPayload
    | BoolPayload(b: bool)
    | NumberPayload(n: real)
    | StringPayload(s: string)
    | ObjectPayload(raw: RawAlert)

  /** The canonical record; `id == None` is the property set to undefined. */
  datatype Alert = Alert(
    id: Option<string>,
    eventType: string,
    severity: string,
    confidenceLevel: real,
    details: string,
    detectedAt: string)

  /** What every normalized alert satisfies: each text field is non-empty, so
      truthy. */
  predicate Canonical(a: Alert) {
    a.eventType != "" && a.severity != "" && a.details != "" && a.detectedAt != ""
  }

  function Min(a: real, b: real): real { if a <= b then a else b }

  function Max(a: real, b: real): real { if a >= b then a else b }

  /** The `confidence_level` of the canonical record: a non-null
      `confidence_level` passes through unchanged (no clamp, 0 kept); otherwise
      a non-null legacy `confidence` is scaled from percent and clamped into
      [0, 1]; otherwise 0. */
  function NormalizedConfidence(raw: RawAlert): (c: real)
    ensures raw.confidenceLevel.Present? ==> c == raw.confidenceLevel.value
    ensures !raw.confidenceLevel.Present? ==> 0.0 <= c <= 1.0
    ensures !raw.confidenceLevel.Present? && raw.confidence.Present? ==>
      var percent := raw.confidence.value;
      c == (if percent < 0.0 then 0.0 else if percent > 100.0 then 1.0 else percent / 100.0)
    ensures !raw.confidenceLevel.Present? && !raw.confidence.Present? ==> c == 0.0
  {
    if NonNull(raw.confidenceLevel) then raw.confidenceLevel.value
    else if NonNull(raw.confidence) then Min(1.0, Max(0.0, raw.confidence.value / 100.0))
    else 0.0
  }

  /** `normalizeAlert(raw)`, with the current time injected. */
  function NormalizeAlert(p: Payload, now: Timestamp): (r: Option<Alert>)
    ensures r.Some? <==> p.ObjectPayload?
    ensures r.Some? ==> Canonical(r.value)
    ensures r.Some? ==> r.value.confidenceLevel == NormalizedConfidence(p.raw)
  {
    match p
    case ObjectPayload(raw) =>
      Some(Alert(
        id := if NonNull(raw.id) then Some(raw.id.value) else None,
        eventType := OrString(raw.eventType, OrString(raw.behaviorType, "Unknown Event")),
        severity := OrString(raw.severity, "low"),
        confidenceLevel := NormalizedConfidence(raw),
        details := OrString(raw.details, OrString(raw.description, "No details provided")),
        detectedAt := OrString(raw.detectedAt, OrString(raw.createdAt, now))))
    case _ => None
  }

  /** The canonical record handed back as a payload: the object
      `normalizeAlert` builds has exactly these six properties. */
  function AsPayload(a: Alert): (p: Payload)
    ensures p.ObjectPayload? && p.raw.sessionId == Missing
  {
    ObjectPayload(RawAlert(
      sessionId := Missing,
      id := if a.id.Some? then Present(a.id.value) else Missing,
      eventType := Present(a.eventType),
      behaviorType := Missing,
      severity := Present(a.severity),
      confidenceLevel := Present(a.confidenceLevel),
      confidence := Missing,
      details := Present(a.details),
      description := Missing,
      detectedAt := Present(a.detectedAt),
      createdAt := Missing))
  }

  /** The three text fallback chains: the current name wins when truthy, the
      legacy name when only it is truthy, the default otherwise; an empty
      string falls through like null. */
  lemma TextFallbacks(raw: RawAlert, now: Timestamp)
    ensures var a := NormalizeAlert(ObjectPayload(raw), now).value;
      && (TruthyString(raw.eventType) ==> a.eventType == raw.eventType.value)
      && (!TruthyString(raw.eventType) && TruthyString(raw.behaviorType) ==> a.eventType == raw.behaviorType.value)
      && (!TruthyString(raw.eventType) && !TruthyString(raw.behaviorType) ==> a.eventType == "Unknown Event")
      && (TruthyString(raw.severity) ==> a.severity == raw.severity.value)
      && (!TruthyString(raw.severity) ==> a.severity == "low")
      && (TruthyString(raw.details) ==> a.details == raw.details.value)
      && (!TruthyString(raw.details) && TruthyString(raw.description) ==> a.details == raw.description.value)
      && (!TruthyString(raw.details) && !TruthyString(raw.description) ==> a.details == "No details provided")
  {
  }

  /** `detected_at` falls back to `created_at`, then to the current time; `id`
      is kept, with null turned into undefined. */
  lemma TimestampAndId(raw: RawAlert, now: Timestamp)
    ensures var a := NormalizeAlert(ObjectPayload(raw), now).value;
      && (TruthyString(raw.detectedAt) ==> a.detectedAt == raw.detectedAt.value)
      && (!TruthyString(raw.detectedAt) && TruthyString(raw.createdAt) ==> a.detectedAt == raw.createdAt.value)
      && (!TruthyString(raw.detectedAt) && !TruthyString(raw.createdAt) ==> a.detectedAt == now)
      && (a.id.Some? <==> raw.id.Present?)
      && (a.id.Some? ==> a.id.value == raw.id.value)
  {
  }

  /** Normalizing is idempotent: every field of the canonical record is truthy
      or non-null, so a second pass keeps it, whatever the time then; and null
      stays null. */
  lemma NormalizeIdempotent(p: Payload, now: Timestamp, later: Timestamp)
    ensures var r := NormalizeAlert(p, now);
      NormalizeAlert(if r.Some? then AsPayload(r.value) else NullPayload, later) == r
  {
  }

  /** The legacy payload the socket test page emits: confidence 92 becomes
      0.92, and the legacy names fill the canonical ones. */
  lemma LegacyTestPayload(now: Timestamp)
    ensures var raw := RawAlert(
        sessionId := Present("d9bf302d-9cbb-4ea6-9b36-a1f88fda8996"),
        id := Missing, eventType := Missing,
        behaviorType := Present("Head Movement"),
        severity := Present("high"),
        confidenceLevel := Missing, confidence := Present(92.0),
        details := Missing, description := Present("Frequent head turning detected"),
        detectedAt := Missing, createdAt := Missing);
      NormalizeAlert(ObjectPayload(raw), now) == Some(Alert(None, "Head Movement", "high", 0.92, "Frequent head turning detected", now))
  {
  }
}
