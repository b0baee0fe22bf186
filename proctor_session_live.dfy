/** The live console for one session: the latest matching `live_status`
    (`liveData`), the number of status windows processed (`windowCount`), the
    runtime alert feed (`runtimeLogs`) and the derivations shown from them. */
module ProctorSessionLive {
  import opened Js
  import opened AlertNormalizer
  import opened SocketEvents
  import Counting
  import ProctorDashboard

  /** The test the `live_status` handler applies. */
  function IsFor(sessionId: string): StatusEvent -> bool {
    (e: StatusEvent) => e.sessionId == sessionId
  }

  /** The status events for `sessionId`, in arrival order: every matching
      event is kept, and no other. */
  function Matching(events: seq<StatusEvent>, sessionId: string): (r: seq<StatusEvent>)
    ensures |r| <= |events|
    ensures forall i :: 0 <= i < |r| ==> r[i].sessionId == sessionId
    ensures forall e :: e in r <==> e in events && e.sessionId == sessionId
  {
    if events == [] then []
    else
      var last := events[|events| - 1];
      Matching(events[..|events| - 1], sessionId) + (if last.sessionId == sessionId then [last] else [])
  }

  /** The events are filtered in order: filtering distributes over
      concatenation. */
  lemma {:induction false} MatchingAppend(a: seq<StatusEvent>, b: seq<StatusEvent>, sessionId: string)
    ensures Matching(a + b, sessionId) == Matching(a, sessionId) + Matching(b, sessionId)
    decreases |b|
  {
    if b == [] {
      assert a + b == a;
    } else {
      var n := |b| - 1;
      assert (a + b)[..|a + b| - 1] == a + b[..n];
      assert (a + b)[|a + b| - 1] == b[n];
      MatchingAppend(a, b[..n], sessionId);
    }
  }

  /** The number of windows processed is the number of matching events. */
  lemma {:induction false} MatchingCount(events: seq<StatusEvent>, sessionId: string)
    ensures |Matching(events, sessionId)| == Counting.Count(events, IsFor(sessionId))
    decreases |events|
  {
    if events != [] {
      var n := |events| - 1;
      assert events == events[..n] + [events[n]];
      Counting.CountAppend(events[..n], [events[n]], IsFor(sessionId));
      MatchingCount(events[..n], sessionId);
    }
  }

  function Last(events: seq<StatusEvent>): Option<StatusEvent> {
    if events == [] then None else Some(events[|events| - 1])
  }

  /** `liveData?.prob_cheat ?? 0`: only a missing payload or a null or
      undefined value becomes 0; any other value, a genuine 0 included, is
      kept. */
  function Probability(liveData: Option<StatusEvent>): (p: JsValue)
    ensures liveData.None? ==> p == Num(0.0)
    ensures liveData.Some? && Nullish(Get(StatusFields(liveData.value), "prob_cheat")) ==> p == Num(0.0)
    ensures liveData.Some? && !Nullish(Get(StatusFields(liveData.value), "prob_cheat")) ==>
      p == Get(StatusFields(liveData.value), "prob_cheat")
    ensures !Nullish(p)
  {
    if liveData.None? then Num(0.0)
    else Coalesce(Get(StatusFields(liveData.value), "prob_cheat"), Num(0.0))
  }

  /** `liveData?.cat_active === 1`: strict, so only the number 1 counts. */
  predicate CatActive(liveData: Option<StatusEvent>): (b: bool)
    ensures b ==> liveData.Some? && ToNumber(Get(StatusFields(liveData.value), "cat_active")) == Some(1.0)
    ensures liveData.Some? && !Get(StatusFields(liveData.value), "cat_active").Num? ==> !b
  {
    liveData.Some? && Get(StatusFields(liveData.value), "cat_active") == Num(1.0)
  }

  /** Only the number 1 activates the flag: `true` and the string "1" do
      not, under strict equality. */
  lemma CatActiveStrict(ev: StatusEvent)
    ensures Get(StatusFields(ev), "cat_active") in {Bool(true), Str("1"), Num(0.0)} ==> !CatActive(Some(ev))
    ensures !CatActive(None)
  {
  }

  /** `riskColor`: red above 0.8, yellow above 0.5, green otherwise. */
  function RiskColor(liveData: Option<StatusEvent>): (c: string)
    ensures c in {"bg-red-600", "bg-yellow-500", "bg-green-600"}
    ensures liveData.None? ==> c == "bg-green-600"
    ensures Probability(liveData).Num? ==>
      var x := Probability(liveData).n;
      && (c == "bg-red-600" <==> x > 0.8)
      && (c == "bg-yellow-500" <==> 0.5 < x <= 0.8)
      && (c == "bg-green-600" <==> x <= 0.5)
  {
    var p := Probability(liveData);
    if Greater(p, 0.8) then "bg-red-600" else if Greater(p, 0.5) then "bg-yellow-500" else "bg-green-600"
  }

  /** The colour of each dashboard tier. */
  function TierColor(t: ProctorDashboard.Tier): string {
    match t
    case High => "bg-red-600"
    case Medium => "bg-yellow-500"
    case Low => "bg-green-600"
  }

  /** The console's colour agrees with the dashboard's tier for the same
      payload, although one defaults with `??` and the other with `||`: the
      values on which these differ are all falsy, and none exceeds a positive
      threshold. */
  lemma RiskColorMatchesTier(ev: StatusEvent)
    ensures RiskColor(Some(ev)) == TierColor(ProctorDashboard.ClassifyValue(Get(StatusFields(ev), "prob_cheat")))
  {
  }

  /** With no status yet the console shows green, as LOW. */
  lemma RiskColorBeforeFirstStatus()
    ensures RiskColor(None) == TierColor(ProctorDashboard.ClassifyRisk(0.0)) == "bg-green-600"
  {
  }

  /** The page's live state. */
  class LiveMonitor {
    const sessionId: string
    var liveData: Option<StatusEvent>
    var windowCount: nat
    var runtimeLogs: seq<RawAlert>
    /** Every `live_status` delivered to the page, in order. */
    ghost var received: seq<StatusEvent>

    /** `windowCount` counts the status events for this session, and
        `liveData` is the latest of them. */
    ghost predicate Valid()
      reads this
    {
      && windowCount == |Matching(received, sessionId)|
      && liveData == Last(Matching(received, sessionId))
    }

    constructor (sessionId: string)
      ensures Valid()
      ensures this.sessionId == sessionId
      ensures liveData.None? && windowCount == 0 && runtimeLogs == [] && received == []
    {
      this.sessionId := sessionId;
      liveData := None;
      windowCount := 0;
      runtimeLogs := [];
      received := [];
    }

    /** The `live_status` handler: another session's event changes nothing;
        a matching one replaces `liveData` wholesale and counts one window. */
    method ApplyStatus(ev: StatusEvent)
      requires Valid()
      modifies this
      ensures Valid()
      ensures received == old(received) + [ev] && runtimeLogs == old(runtimeLogs)
      ensures ev.sessionId != sessionId ==> liveData == old(liveData) && windowCount == old(windowCount)
      ensures ev.sessionId == sessionId ==> liveData == Some(ev) && windowCount == old(windowCount) + 1
    {
      received := received + [ev];
      assert received[..|received| - 1] == old(received);
      if ev.sessionId != sessionId {
        return;
      }
      liveData := Some(ev);
      windowCount := windowCount + 1;
    }

    /** The `new_alert` handler: an alert for this session goes, as received,
        to the front of `runtimeLogs`; any other alert changes nothing. */
    method ApplyAlert(a: RawAlert)
      requires Valid()
      modifies this`runtimeLogs
      ensures Valid()
      ensures AlertFor(a, sessionId) ==> runtimeLogs == [a] + old(runtimeLogs)
      ensures !AlertFor(a, sessionId) ==> runtimeLogs == old(runtimeLogs)
    {
      if !AlertFor(a, sessionId) {
        return;
      }
      runtimeLogs := [a] + runtimeLogs;
    }

    /** The initial fetch: `runtimeRes.data || []` replaces the feed. */
    method ApplyInitialLogs(data: Option<seq<RawAlert>>)
      requires Valid()
      modifies this`runtimeLogs
      ensures Valid()
      ensures data.Some? ==> runtimeLogs == data.value
      ensures data.None? ==> runtimeLogs == []
    {
      runtimeLogs := OrEmpty(data);
    }
  }
}
