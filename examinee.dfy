/** The examinee monitoring page: the capitalized risk level of the fetched
    session, and the two alert lists (`alerts` for the live panel, `logs` for
    the cheating log) fed by the history fetch and by live alerts. */
module Examinee {
  import opened Js
  import opened Counting
  import opened AlertNormalizer

  /** `toUpperCase` on one character; only ASCII letters change. */
  function UpperAscii(c: char): (u: char)
    ensures 'a' <= c <= 'z' ==> u as int == c as int - 32
    ensures !('a' <= c <= 'z') ==> u == c
  {
    if 'a' <= c <= 'z' then (c as int - 32) as char else c
  }

  /** `risk_level ? risk_level.charAt(0).toUpperCase() + risk_level.slice(1) : "Low"` */
  function RiskLevel(riskLevel: Field<string>): (r: string)
    ensures r != ""
    ensures TruthyString(riskLevel) ==>
      |r| == |riskLevel.value| && r[0] == UpperAscii(riskLevel.value[0]) && r[1..] == riskLevel.value[1..]
    ensures !TruthyString(riskLevel) ==> r == "Low"
  {
    if TruthyString(riskLevel) then [UpperAscii(riskLevel.value[0])] + riskLevel.value[1..] else "Low"
  }

  /** Capitalizing is idempotent: a level that is already shown capitalized
      is shown unchanged. */
  lemma RiskLevelIdempotent(riskLevel: Field<string>)
    ensures RiskLevel(Present(RiskLevel(riskLevel))) == RiskLevel(riskLevel)
  {
    var r := RiskLevel(riskLevel);
    assert [UpperAscii(r[0])] + r[1..] == r;
  }

  predicate IsObject(p: Payload) {
    p.ObjectPayload?
  }

  /** `data.map(normalizeAlert).filter(Boolean)`: the nulls are dropped; one
      timestamp stands for every `new Date()` of the pass. */
  function NormalizeHistory(data: seq<Payload>, now: Timestamp): (r: seq<Alert>)
    ensures |r| == Count(data, IsObject) <= |data|
    ensures forall i :: 0 <= i < |r| ==> Canonical(r[i])
  {
    if data == [] then []
    else
      var head := NormalizeAlert(data[0], now);
      (if head.Some? then [head.value] else []) + NormalizeHistory(data[1..], now)
  }

  /** The pass preserves relative order: it distributes over concatenation. */
  lemma {:induction false} NormalizeHistoryAppend(a: seq<Payload>, b: seq<Payload>, now: Timestamp)
    ensures NormalizeHistory(a + b, now) == NormalizeHistory(a, now) + NormalizeHistory(b, now)
    decreases |a|
  {
    if a == [] {
      assert a + b == b;
    } else {
      assert (a + b)[0] == a[0];
      assert (a + b)[1..] == a[1..] + b;
      NormalizeHistoryAppend(a[1..], b, now);
    }
  }

  /** A history made only of objects loses nothing: entry i normalizes
      entry i. */
  lemma {:induction false} NormalizeHistoryOfObjects(data: seq<Payload>, now: Timestamp)
    requires forall i :: 0 <= i < |data| ==> data[i].ObjectPayload?
    ensures |NormalizeHistory(data, now)| == |data|
    ensures forall i :: 0 <= i < |data| ==> NormalizeHistory(data, now)[i] == NormalizeAlert(data[i], now).value
    decreases |data|
  {
    if data != [] {
      NormalizeHistoryOfObjects(data[1..], now);
      var r := NormalizeHistory(data, now);
      assert r == [NormalizeAlert(data[0], now).value] + NormalizeHistory(data[1..], now);
      forall i | 1 <= i < |data|
        ensures r[i] == NormalizeAlert(data[i], now).value
      {
        assert data[1..][i - 1] == data[i];
      }
    }
  }

  /** The page's `alerts` and `logs` state. */
  class ExamineeMonitor {
    var alerts: seq<Alert>
    var logs: seq<Alert>

    /** Every update sets both lists to the same value, and only normalized
        alerts are ever stored. */
    ghost predicate Valid()
      reads this
    {
      alerts == logs && forall i :: 0 <= i < |alerts| ==> Canonical(alerts[i])
    }

    constructor ()
      ensures Valid() && alerts == [] && logs == []
    {
      alerts := [];
      logs := [];
    }

    /** A completed history fetch replaces both lists with the normalized
        history, discarding alerts pushed earlier. */
    method ApplyHistory(data: seq<Payload>, now: Timestamp)
      requires Valid()
      modifies this
      ensures Valid()
      ensures alerts == NormalizeHistory(data, now) && logs == alerts
    {
      var normalized := NormalizeHistory(data, now);
      logs := normalized;
      alerts := normalized;
    }

    /** A failed history fetch empties both lists. */
    method ApplyHistoryFailure()
      requires Valid()
      modifies this
      ensures Valid()
      ensures alerts == [] && logs == []
    {
      logs := [];
      alerts := [];
    }

    /** A live `new_alert`: dropped when it does not normalize, otherwise put
        at the front of both lists. */
    method ApplyLiveAlert(raw: Payload, now: Timestamp)
      requires Valid()
      modifies this
      ensures Valid()
      ensures NormalizeAlert(raw, now).None? ==> alerts == old(alerts) && logs == old(logs)
      ensures NormalizeAlert(raw, now).Some? ==>
        && alerts == [NormalizeAlert(raw, now).value] + old(alerts)
        && logs == [NormalizeAlert(raw, now).value] + old(logs)
    {
      var alert := NormalizeAlert(raw, now);
      if alert.None? {
        return;
      }
      alerts := [alert.value] + alerts;
      logs := [alert.value] + logs;
    }
  }
}
