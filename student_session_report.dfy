/** The per-session audit report: the flagged-question figure, the verdict
    shown, the runtime alert list, the single expanded question, and the
    window aggregation rule the report states. */
module StudentSessionReport {
  import opened Js
  import opened Counting
  import opened AlertNormalizer
  import Behavior

  /** One inference window as the detailed log lists it. */
  datatype Window = Window(
    windowIndex: int,
    probCheat: real,
    predRaw: int,
    catActive: int,
    catTransition: int,
    decisionMode: string)

  /** One entry of the behavioural report; `finalLabel` comes from the
      backend. */
  datatype QuestionReport = QuestionReport(
    questionIndex: int,
    finalLabel: Field<string>,
    flaggedWindows: int,
    totalWindows: int,
    avgProbability: real,
    decisionMode: string,
    windows: seq<Window>)

  /** The fetched session, as far as the report derives anything from it. */
  datatype ReportSession = ReportSession(finalLabel: Field<string>, alerts: Option<seq<RawAlert>>)

  predicate IsCheating(q: QuestionReport) {
    q.finalLabel == Present("cheating")
  }

  /** `cheatingQuestions`: the entries labelled exactly "cheating"; never more
      than `totalQuestions`, the number of entries. */
  function CheatingQuestions(behavioral: seq<QuestionReport>): (n: nat)
    ensures n <= |behavioral|
    ensures n == 0 <==> forall i :: 0 <= i < |behavioral| ==> behavioral[i].finalLabel != Present("cheating")
  {
    Count(behavioral, IsCheating)
  }

  /** The verdict shown: `final_label || "Pending"`. */
  function DisplayedVerdict(finalLabel: Field<string>): (r: string)
    ensures r != ""
    ensures TruthyString(finalLabel) ==> r == finalLabel.value
    ensures !TruthyString(finalLabel) ==> r == "Pending"
  {
    OrString(finalLabel, "Pending")
  }

  /** The click on question `q`: it collapses `q` when `q` is the expanded
      one, and otherwise expands `q` alone. */
  function Toggle(expanded: Option<int>, q: int): (r: Option<int>)
    ensures r == Some(q) <==> expanded != Some(q)
    ensures r.None? <==> expanded == Some(q)
  {
    if expanded == Some(q) then None else Some(q)
  }

  /** Two clicks on the same question from the collapsed state (or from that
      question expanded) come back to where they started. */
  lemma ToggleTwice(expanded: Option<int>, q: int)
    requires expanded.None? || expanded == Some(q)
    ensures Toggle(Toggle(expanded, q), q) == expanded
  {
  }

  /** A window is flagged anomalous when `pred_raw` or `cat_active` is 1. */
  predicate WindowFlagged(w: Window) {
    w.predRaw == 1 || w.catActive == 1
  }

  /** The rule the report states (the label itself comes from the backend):
      CHEATING iff three or more windows are flagged. */
  function StatedLabel(windows: seq<Window>): (v: Behavior.Verdict)
    ensures |windows| < Behavior.CheatingThreshold ==> v == Behavior.Normal
    ensures (forall i :: 0 <= i < |windows| ==> !WindowFlagged(windows[i])) ==> v == Behavior.Normal
  {
    Behavior.Classify(Count(windows, WindowFlagged))
  }

  /** The rule is a fold with no dependence on window order. */
  lemma StatedLabelOrderFree(windows: seq<Window>, reordered: seq<Window>)
    requires multiset(windows) == multiset(reordered)
    ensures StatedLabel(windows) == StatedLabel(reordered)
  {
    CountPermutation(windows, reordered, WindowFlagged);
  }

  /** Flagging a window never lowers the count, so it never clears a
      CHEATING label. */
  lemma StatedLabelMonotone(windows: seq<Window>, i: nat, w: Window)
    requires i < |windows| && WindowFlagged(w)
    ensures Count(windows[i := w], WindowFlagged) >= Count(windows, WindowFlagged)
    ensures StatedLabel(windows) == Behavior.Cheating ==> StatedLabel(windows[i := w]) == Behavior.Cheating
  {
    CountUpdate(windows, i, w, WindowFlagged);
  }

  /** The boundary sits at exactly three: adding a flagged window to a
      question with two flagged windows turns it from NORMAL to CHEATING. */
  lemma StatedLabelBoundary(windows: seq<Window>, w: Window)
    requires Count(windows, WindowFlagged) == 2 && WindowFlagged(w)
    ensures StatedLabel(windows) == Behavior.Normal
    ensures StatedLabel(windows + [w]) == Behavior.Cheating
  {
    CountAppend(windows, [w], WindowFlagged);
  }

  /** The page's state. */
  class ReportView {
    var session: Option<ReportSession>
    var behavioral: seq<QuestionReport>
    var runtimeLogs: seq<RawAlert>
    var expanded: Option<int>

    constructor ()
      ensures session.None? && behavioral == [] && runtimeLogs == [] && expanded.None?
    {
      session := None;
      behavioral := [];
      runtimeLogs := [];
      expanded := None;
    }

    /** The fetch: the session is stored first; when the behavioural report
        also arrives (`report` is not `None`) it is stored too, and the
        runtime list becomes the session's `alerts || []`. */
    method ApplyFetch(s: ReportSession, report: Option<seq<QuestionReport>>)
      modifies this
      ensures session == Some(s) && expanded == old(expanded)
      ensures report.Some? ==> behavioral == report.value && runtimeLogs == OrEmpty(s.alerts)
      ensures report.None? ==> behavioral == old(behavioral) && runtimeLogs == old(runtimeLogs)
    {
      session := Some(s);
      if report.Some? {
        behavioral := report.value;
        runtimeLogs := OrEmpty(s.alerts);
      }
    }

    /** The "View/Hide Detailed Window Logs" button of question `q`. */
    method Click(q: int)
      modifies this`expanded
      ensures expanded == Toggle(old(expanded), q)
      ensures expanded.Some? ==> expanded.value == q
    {
      expanded := if expanded == Some(q) then None else Some(q);
    }
  }
}
