/** The display-side reading of one alert in `AlertItem`: it accepts either
    wire shape (raw or normalized) and derives the shown type, details,
    severity, confidence percentage, timestamp and border style. */
module AlertItem {
  import opened Js
  import opened AlertNormalizer

  /** `Math.round`: halves round up, towards positive infinity. */
  function Round(x: real): (n: int)
    ensures n as real - 0.5 <= x < n as real + 0.5
  {
    (x + 0.5).Floor
  }

  /** `event_type || behavior_type || "Unknown Event"` */
  function DisplayEventType(a: RawAlert): (r: string)
    ensures r != ""
    ensures TruthyString(a.eventType) ==> r == a.eventType.value
    ensures !TruthyString(a.eventType) && TruthyString(a.behaviorType) ==> r == a.behaviorType.value
    ensures !TruthyString(a.eventType) && !TruthyString(a.behaviorType) ==> r == "Unknown Event"
  {
    OrString(a.eventType, OrString(a.behaviorType, "Unknown Event"))
  }

  /** `details || description || "No details provided"` */
  function DisplayDetails(a: RawAlert): (r: string)
    ensures r != ""
    ensures TruthyString(a.details) ==> r == a.details.value
    ensures !TruthyString(a.details) && TruthyString(a.description) ==> r == a.description.value
    ensures !TruthyString(a.details) && !TruthyString(a.description) ==> r == "No details provided"
  {
    OrString(a.details, OrString(a.description, "No details provided"))
  }

  /** `severity || "low"` */
  function DisplaySeverity(a: RawAlert): (r: string)
    ensures r != ""
    ensures TruthyString(a.severity) ==> r == a.severity.value
    ensures !TruthyString(a.severity) ==> r == "low"
  {
    OrString(a.severity, "low")
  }

  /** The shown percentage: a non-null `confidence_level` scaled and rounded,
      else a non-null legacy `confidence` as it is, else 0. */
  function DisplayConfidence(a: RawAlert): (percent: real)
    ensures a.confidenceLevel.Present? ==>
      percent == percent.Floor as real && percent - 0.5 <= a.confidenceLevel.value * 100.0 < percent + 0.5
    ensures !a.confidenceLevel.Present? && a.confidence.Present? ==> percent == a.confidence.value
    ensures !a.confidenceLevel.Present? && !a.confidence.Present? ==> percent == 0.0
  {
    if NonNull(a.confidenceLevel) then Round(a.confidenceLevel.value * 100.0) as real
    else if NonNull(a.confidence) then a.confidence.value
    else 0.0
  }

  /** `detected_at || created_at || null`; the time is shown only when this is
      `Some`. */
  function DisplayTimestamp(a: RawAlert): (t: Option<string>)
    ensures t.Some? <==> TruthyString(a.detectedAt) || TruthyString(a.createdAt)
    ensures t.Some? ==> t.value != ""
    ensures TruthyString(a.detectedAt) ==> t == Some(a.detectedAt.value)
    ensures !TruthyString(a.detectedAt) && TruthyString(a.createdAt) ==> t == Some(a.createdAt.value)
  {
    if TruthyString(a.detectedAt) then Some(a.detectedAt.value)
    else if TruthyString(a.createdAt) then Some(a.createdAt.value)
    else None
  }

  const SeverityStyles: map<string, string> := map[
    "low" := "border-green-400 bg-green-50 text-green-700",
    "medium" := "border-yellow-400 bg-yellow-50 text-yellow-700",
    "high" := "border-red-400 bg-red-50 text-red-700"]

  /** The border style looked up by severity, gray for any other severity. */
  function SeverityStyle(severity: string): (style: string)
    ensures severity in {"low", "medium", "high"} ==> style == SeverityStyles[severity]
    ensures severity !in {"low", "medium", "high"} ==> style == "border-gray-300"
  {
    if severity in SeverityStyles then SeverityStyles[severity] else "border-gray-300"
  }

  /** The display applies the same three fallback chains as the normalizer,
      so a raw alert shows the same type, details and severity as its
      normalized form, and the normalized form shows what it holds. */
  lemma DisplayAgreesWithNormalizer(raw: RawAlert, now: Timestamp)
    ensures var a := NormalizeAlert(ObjectPayload(raw), now).value;
      var shown := AsPayload(a).raw;
      && DisplayEventType(raw) == a.eventType == DisplayEventType(shown)
      && DisplayDetails(raw) == a.details == DisplayDetails(shown)
      && DisplaySeverity(raw) == a.severity == DisplaySeverity(shown)
      && SeverityStyle(DisplaySeverity(raw)) == SeverityStyle(DisplaySeverity(shown))
      && DisplayTimestamp(shown) == Some(a.detectedAt)
  {
  }

  /** The normalized record always shows its confidence as a rounded
      percentage of the canonical value. */
  lemma NormalizedPercent(raw: RawAlert, now: Timestamp)
    ensures var a := NormalizeAlert(ObjectPayload(raw), now).value;
      DisplayConfidence(AsPayload(a).raw) == Round(NormalizedConfidence(raw) * 100.0) as real
  {
  }

  /** For an integer legacy confidence c in 0..100 the raw alert and its
      normalized form show the same percentage, namely c. */
  lemma LegacyPercentPreserved(raw: RawAlert, now: Timestamp, c: int)
    requires 0 <= c <= 100
    requires !raw.confidenceLevel.Present? && raw.confidence == Present(c as real)
    ensures var a := NormalizeAlert(ObjectPayload(raw), now).value;
      DisplayConfidence(raw) == c as real && DisplayConfidence(AsPayload(a).raw) == c as real
  {
    var a := NormalizeAlert(ObjectPayload(raw), now).value;
    assert a.confidenceLevel == c as real / 100.0;
    assert a.confidenceLevel * 100.0 == c as real;
    assert Round(c as real) == c;
  }
}
