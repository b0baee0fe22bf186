/** The threshold rule behind every behavioural verdict in the dashboard: a
    count of anomalous items reaching three means cheating. */
module Behavior {
  import opened Counting

  /** The boundary the rule uses everywhere: three or more is cheating. */
  const CheatingThreshold: nat := 3

  datatype Verdict = Normal | Cheating

  /** `count >= 3 ? cheating : normal` */
  function Classify(count: nat): (v: Verdict)
    ensures v == Cheating <==> count >= CheatingThreshold
  {
    if count >= CheatingThreshold then Cheating else Normal
  }

  predicate IsSuspicious(tag: string) {
    tag == "suspicious"
  }

  /** `logs.filter(log => log.label === "suspicious").length` over the labels. */
  function SuspiciousCount(labels: seq<string>): (n: nat)
    ensures n <= |labels|
    ensures n == 0 <==> forall i :: 0 <= i < |labels| ==> labels[i] != "suspicious"
  {
    Count(labels, IsSuspicious)
  }

  /** The behavioural verdict over a list of labels. */
  function LabelVerdict(labels: seq<string>): (v: Verdict)
    ensures |labels| < CheatingThreshold ==> v == Normal
  {
    Classify(SuspiciousCount(labels))
  }

  /** Relabelling one entry as "suspicious" raises the count by one or leaves
      it unchanged, so it never turns a cheating verdict into a normal one. */
  lemma RelabelNeverClears(labels: seq<string>, i: nat)
    requires i < |labels|
    ensures SuspiciousCount(labels[i := "suspicious"]) == SuspiciousCount(labels) + (if labels[i] == "suspicious" then 0 else 1)
    ensures LabelVerdict(labels) == Cheating ==> LabelVerdict(labels[i := "suspicious"]) == Cheating
  {
    CountUpdate(labels, i, "suspicious", IsSuspicious);
  }
}
