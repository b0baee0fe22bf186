/** The student's examination report: the active tab and the overall
    behaviour verdict over the per-question labels. */
module StudentReport {
  import opened Js
  import Counting
  import Behavior

  /** `params.get("tab") || "academic"`; `URLSearchParams.get` gives `None`
      for an absent parameter. */
  function ActiveTab(tab: Option<string>): (r: string)
    ensures r != ""
    ensures tab.Some? && tab.value != "" ==> r == tab.value
    ensures tab.None? || tab.value == "" ==> r == "academic"
  {
    if tab.Some? && tab.value != "" then tab.value else "academic"
  }

  /** The labels of the page's behaviour data, questions 1 to 5. */
  const BehaviorLabels: seq<string> := ["normal", "normal", "normal", "suspicious", "normal"]

  /** `overallBehavior`: 0 to 2 suspicious answers are "Normal", 3 or more
      "Cheating". */
  function OverallBehavior(labels: seq<string>): (r: string)
    ensures r == "Cheating" <==> Behavior.SuspiciousCount(labels) >= 3
    ensures r == "Normal" <==> Behavior.SuspiciousCount(labels) <= 2
  {
    match Behavior.LabelVerdict(labels)
    case Cheating => "Cheating"
    case Normal => "Normal"
  }

  /** Relabelling any entry as suspicious never turns "Cheating" into
      "Normal". */
  lemma OverallBehaviorMonotone(labels: seq<string>, i: nat)
    requires i < |labels|
    ensures OverallBehavior(labels) == "Cheating" ==> OverallBehavior(labels[i := "suspicious"]) == "Cheating"
  {
    Behavior.RelabelNeverClears(labels, i);
  }

  /** The page's own data: one suspicious answer, so "Normal". */
  lemma PageDataIsNormal()
    ensures Behavior.SuspiciousCount(BehaviorLabels) == 1
    ensures OverallBehavior(BehaviorLabels) == "Normal"
  {
    var s := BehaviorLabels;
    assert s == ["normal", "normal", "normal"] + ["suspicious", "normal"];
    Counting.CountAppend(["normal", "normal", "normal"], ["suspicious", "normal"], Behavior.IsSuspicious);
  }
}
