/** The proctor dashboard: a dictionary from session id to the last-known
    status fields and the accumulated alerts of that session, fed by
    `live_status` and `new_alert` events; a three-tier risk classification;
    the sessions stably sorted by descending tier; the flagged-session figure;
    and the behavioural verdict over the mock window labels. */
module ProctorDashboard {
  import opened Js
  import opened AlertNormalizer
  import opened SocketEvents
  import Counting
  import Behavior

  // ---------------------------------------------------------------------------
  // Risk tiers

  datatype Tier = Low | Medium | High

  /** `riskOrder`: HIGH 3, MEDIUM 2, LOW 1. */
  function Rank(t: Tier): (n: int)
    ensures 1 <= n <= 3
  {
    match t
    case High => 3
    case Medium => 2
    case Low => 1
  }

  /** `classifyRisk`: both thresholds are exclusive. */
  function ClassifyRisk(p: real): (t: Tier)
    ensures t == High <==> p > 0.8
    ensures t == Medium <==> 0.5 < p <= 0.8
    ensures t == Low <==> p <= 0.5
  {
    if p > 0.8 then High else if p > 0.5 then Medium else Low
  }

  /** A higher probability never gets a lower tier. */
  lemma ClassifyRiskMonotone(p: real, q: real)
    requires p <= q
    ensures Rank(ClassifyRisk(p)) <= Rank(ClassifyRisk(q))
  {
  }

  /** `classifyRisk(v || 0)` on an untyped `prob_cheat`: a missing or falsy
      value counts as 0, and a value that converts to NaN fails both
      comparisons, so it is LOW as well. */
  function ClassifyValue(v: JsValue): (t: Tier)
    ensures !Truthy(v) ==> t == Low
    ensures ToNumber(v).None? ==> t == Low
    ensures v.Num? ==> t == ClassifyRisk(v.n)
  {
    var x := Or(v, Num(0.0));
    if Greater(x, 0.8) then High else if Greater(x, 0.5) then Medium else Low
  }

  // ---------------------------------------------------------------------------
  // Session entries and the two reducers

  /** One value of the `sessions` dictionary: the properties merged from status
      events (besides `alerts`) and the `alerts` list. */
  datatype Entry = Entry(fields: map<string, JsValue>, alerts: seq<RawAlert>)

  /** `{ alerts: [] }`, what an unseen session starts from. */
  const EmptyEntry: Entry := Entry(map[], [])

  /** `prev[id] || { alerts: [] }` */
  function Existing(sessions: map<string, Entry>, id: string): Entry {
    if id in sessions then sessions[id] else EmptyEntry
  }

  /** The tier a session is ranked by. */
  function EntryTier(e: Entry): Tier {
    ClassifyValue(Get(e.fields, "prob_cheat"))
  }

  /** `{ ...existing, ...data }`: a shallow, field-level replace. Payload
      properties win, all others are kept, and the alerts list is kept unless
      the payload carries its own. */
  function MergeStatus(e: Entry, ev: StatusEvent): (r: Entry)
    ensures r.alerts == (if ev.alerts.Some? then ev.alerts.value else e.alerts)
    ensures r.fields.Keys == e.fields.Keys + ev.fields.Keys + {"session_id"}
    ensures forall k :: k in StatusFields(ev) ==> r.fields[k] == StatusFields(ev)[k]
    ensures forall k :: k in e.fields && k !in StatusFields(ev) ==> r.fields[k] == e.fields[k]
  {
    Entry(e.fields + StatusFields(ev), if ev.alerts.Some? then ev.alerts.value else e.alerts)
  }

  /** A status for an unseen session creates `{ alerts: [] }` overwritten by
      the payload: exactly the payload's properties, and its alerts or none. */
  lemma NewSessionFromStatus(ev: StatusEvent)
    ensures MergeStatus(EmptyEntry, ev) == Entry(StatusFields(ev), OrEmpty(ev.alerts))
  {
    assert EmptyEntry.fields + StatusFields(ev) == StatusFields(ev);
  }

  /** `{ ...existing, alerts: [...existing.alerts, alert] }` */
  function AppendAlert(e: Entry, a: RawAlert): (r: Entry)
    ensures r.fields == e.fields
    ensures |r.alerts| == |e.alerts| + 1 && r.alerts[..|e.alerts|] == e.alerts && r.alerts[|e.alerts|] == a
  {
    e.(alerts := e.alerts + [a])
  }

  // ---------------------------------------------------------------------------
  // Ranking: `Object.entries(sessions).sort(...)`

  type SessionRow = (string, Entry)

  function RowRank(row: SessionRow): int {
    Rank(EntryTier(row.1))
  }

  /** The comparator handed to `sort`: negative when `a` goes first. */
  function Compare(a: SessionRow, b: SessionRow): int {
    RowRank(b) - RowRank(a)
  }

  /** Inserts `x` before the first row it does not rank below. */
  function Insert(x: SessionRow, s: seq<SessionRow>): (r: seq<SessionRow>)
    ensures |r| == |s| + 1
  {
    if s == [] || Compare(x, s[0]) <= 0 then [x] + s
    else [s[0]] + Insert(x, s[1..])
  }

  /** Inserting adds `x` and loses nothing. */
  lemma {:induction false} InsertPermutes(x: SessionRow, s: seq<SessionRow>)
    ensures multiset(Insert(x, s)) == multiset(s) + multiset{x}
    decreases |s|
  {
    if s != [] && Compare(x, s[0]) > 0 {
      assert s == [s[0]] + s[1..];
      InsertPermutes(x, s[1..]);
    }
  }

  /** A stable sort with the dashboard's comparator. `Array.prototype.sort` is
      stable, and a stable sort under a consistent comparator has exactly one
      possible result, so this is the order the dashboard shows. */
  function SortSessions(s: seq<SessionRow>): (r: seq<SessionRow>)
    ensures |r| == |s|
    ensures multiset(r) == multiset(s)
  {
    if s == [] then []
    else
      assert s == [s[0]] + s[1..];
      InsertPermutes(s[0], SortSessions(s[1..]));
      Insert(s[0], SortSessions(s[1..]))
  }

  /** The rows of tier `t`, in their original order. */
  function ByTier(s: seq<SessionRow>, t: Tier): (r: seq<SessionRow>)
    ensures |r| <= |s|
    ensures forall i :: 0 <= i < |r| ==> EntryTier(r[i].1) == t
    ensures forall x :: x in r ==> x in s
  {
    if s == [] then []
    else (if EntryTier(s[0].1) == t then [s[0]] else []) + ByTier(s[1..], t)
  }

  /** The reference order: all HIGH rows, then MEDIUM, then LOW, each group in
      original order. */
  function Bucketed(s: seq<SessionRow>): seq<SessionRow> {
    ByTier(s, High) + ByTier(s, Medium) + ByTier(s, Low)
  }

  predicate RankedDescending(r: seq<SessionRow>) {
    forall i, j :: 0 <= i < j < |r| ==> RowRank(r[i]) >= RowRank(r[j])
  }

  lemma {:induction false} ByTierAppend(a: seq<SessionRow>, b: seq<SessionRow>, t: Tier)
    ensures ByTier(a + b, t) == ByTier(a, t) + ByTier(b, t)
    decreases |a|
  {
    if a == [] {
      assert a + b == b;
    } else {
      assert (a + b)[0] == a[0];
      assert (a + b)[1..] == a[1..] + b;
      ByTierAppend(a[1..], b, t);
    }
  }

  lemma {:induction false} ByTierTwice(s: seq<SessionRow>, u: Tier, t: Tier)
    ensures ByTier(ByTier(s, u), t) == if u == t then ByTier(s, t) else []
    decreases |s|
  {
    if s != [] {
      var head := if EntryTier(s[0].1) == u then [s[0]] else [];
      ByTierAppend(head, ByTier(s[1..], u), t);
      ByTierTwice(s[1..], u, t);
    }
  }

  /** Inserting passes over every row of a strictly higher rank. */
  lemma {:induction false} InsertSkips(x: SessionRow, a: seq<SessionRow>, b: seq<SessionRow>)
    requires forall i :: 0 <= i < |a| ==> RowRank(a[i]) > RowRank(x)
    ensures Insert(x, a + b) == a + Insert(x, b)
    decreases |a|
  {
    if a == [] {
      assert a + b == b;
    } else {
      assert (a + b)[0] == a[0];
      assert (a + b)[1..] == a[1..] + b;
      InsertSkips(x, a[1..], b);
    }
  }

  /** One step of `ByTier` on a row put in front. */
  lemma ByTierCons(x: SessionRow, s: seq<SessionRow>, t: Tier)
    ensures ByTier([x] + s, t) == (if EntryTier(x.1) == t then [x] else []) + ByTier(s, t)
  {
    assert ([x] + s)[0] == x && ([x] + s)[1..] == s;
  }

  /** A row is inserted after the rows that outrank it and before a rest
      whose first row does not. */
  lemma InsertAt(x: SessionRow, a: seq<SessionRow>, b: seq<SessionRow>)
    requires forall i :: 0 <= i < |a| ==> RowRank(a[i]) > RowRank(x)
    requires b == [] || RowRank(b[0]) <= RowRank(x)
    ensures Insert(x, a + b) == a + ([x] + b)
  {
    InsertSkips(x, a, b);
  }

  /** The rows of a group all share the group's rank. */
  lemma GroupRank(s: seq<SessionRow>, t: Tier)
    ensures forall i :: 0 <= i < |ByTier(s, t)| ==> RowRank(ByTier(s, t)[i]) == Rank(t)
  {
  }

  lemma Assoc3(a: seq<SessionRow>, b: seq<SessionRow>, c: seq<SessionRow>)
    ensures (a + b) + c == a + (b + c)
  {
  }

  /** Inserting into the reference order of `s` gives the reference order of
      `[x] + s`: `x` goes first among the rows of its own tier. */
  lemma InsertIntoBuckets(x: SessionRow, s: seq<SessionRow>)
    ensures Insert(x, Bucketed(s)) == Bucketed([x] + s)
  {
    var h, m, l := ByTier(s, High), ByTier(s, Medium), ByTier(s, Low);
    GroupRank(s, High);
    GroupRank(s, Medium);
    GroupRank(s, Low);
    ByTierCons(x, s, High);
    ByTierCons(x, s, Medium);
    ByTierCons(x, s, Low);
    var tier := EntryTier(x.1);
    var a, b := if tier == High then [] else if tier == Medium then h else h + m,
                if tier == High then h + m + l else if tier == Medium then m + l else l;
    assert a + b == h + m + l;
    assert b == [] || RowRank(b[0]) <= RowRank(x) by {
      if tier == Medium && m == [] && l != [] {
        assert b[0] == l[0];
      } else if tier == Medium && m != [] {
        assert b[0] == m[0];
      } else if tier == High && h == [] && m != [] {
        assert b[0] == m[0];
      } else if tier == High && h == [] && m == [] && l != [] {
        assert b[0] == l[0];
      } else if tier == High && h != [] {
        assert b[0] == h[0];
      }
    }
    InsertAt(x, a, b);
    assert Bucketed([x] + s) == ByTier([x] + s, High) + ByTier([x] + s, Medium) + ByTier([x] + s, Low);
    if tier == High {
      assert ByTier([x] + s, High) == [x] + h;
      assert ByTier([x] + s, Medium) == m;
      assert ByTier([x] + s, Low) == l;
      Assoc3([x], h, m);
      Assoc3([x], h + m, l);
      assert [] + ([x] + (h + m + l)) == [x] + (h + m + l);
    } else if tier == Medium {
      assert ByTier([x] + s, High) == h;
      assert ByTier([x] + s, Medium) == [x] + m;
      assert ByTier([x] + s, Low) == l;
      Assoc3(h, [x] + m, l);
      Assoc3([x], m, l);
    } else {
      assert ByTier([x] + s, High) == h;
      assert ByTier([x] + s, Medium) == m;
      assert ByTier([x] + s, Low) == [x] + l;
      assert h + m + ([x] + l) == (h + m) + ([x] + l);
    }
  }

  /** The sort yields the reference order. */
  lemma {:induction false} SortIsBucketed(s: seq<SessionRow>)
    ensures SortSessions(s) == Bucketed(s)
    decreases |s|
  {
    if s == [] {
    } else {
      SortIsBucketed(s[1..]);
      InsertIntoBuckets(s[0], s[1..]);
      assert s == [s[0]] + s[1..];
    }
  }

  /** Every row lands in exactly one tier group. */
  lemma {:induction false} TierGroupsPartition(s: seq<SessionRow>)
    ensures multiset(ByTier(s, High)) + multiset(ByTier(s, Medium)) + multiset(ByTier(s, Low)) == multiset(s)
    decreases |s|
  {
    if s != [] {
      var x := s[0];
      assert s == [x] + s[1..];
      TierGroupsPartition(s[1..]);
      ByTierCons(x, s[1..], High);
      ByTierCons(x, s[1..], Medium);
      ByTierCons(x, s[1..], Low);
    }
  }

  lemma BucketedPermutation(s: seq<SessionRow>)
    ensures multiset(Bucketed(s)) == multiset(s)
  {
    TierGroupsPartition(s);
  }

  lemma BucketedDescending(s: seq<SessionRow>)
    ensures RankedDescending(Bucketed(s))
  {
    var h, m, l := ByTier(s, High), ByTier(s, Medium), ByTier(s, Low);
    var r := h + m + l;
    forall i | 0 <= i < |r|
      ensures RowRank(r[i]) == if i < |h| then 3 else if i < |h| + |m| then 2 else 1
    {
      if i < |h| {
        assert r[i] == h[i];
      } else if i < |h| + |m| {
        assert r[i] == m[i - |h|];
      } else {
        assert r[i] == l[i - |h| - |m|];
      }
    }
  }

  /** What the ranked list promises: a permutation of the entries, in
      non-increasing tier order, and stable (each tier keeps the entries'
      original order). */
  lemma SortSessionsCorrect(s: seq<SessionRow>)
    ensures multiset(SortSessions(s)) == multiset(s)
    ensures RankedDescending(SortSessions(s))
    ensures forall t :: ByTier(SortSessions(s), t) == ByTier(s, t)
  {
    SortIsBucketed(s);
    BucketedPermutation(s);
    BucketedDescending(s);
    forall t ensures ByTier(Bucketed(s), t) == ByTier(s, t) {
      var h, m, l := ByTier(s, High), ByTier(s, Medium), ByTier(s, Low);
      ByTierAppend(h + m, l, t);
      ByTierAppend(h, m, t);
      ByTierTwice(s, High, t);
      ByTierTwice(s, Medium, t);
      ByTierTwice(s, Low, t);
      match t
      case High =>
      case Medium =>
      case Low =>
    }
  }

  /** The rows of `Object.entries` in key insertion order. */
  function EntriesOf(order: seq<string>, sessions: map<string, Entry>): (rows: seq<SessionRow>)
    requires forall k :: k in order ==> k in sessions
    ensures |rows| == |order|
    ensures forall i :: 0 <= i < |rows| ==> rows[i] == (order[i], sessions[order[i]])
  {
    if order == [] then []
    else [(order[0], sessions[order[0]])] + EntriesOf(order[1..], sessions)
  }

  /** The dashboard's `sessions` state. `order` is the key order of the object:
      ids are not integer-like, so it is insertion order. */
  class SessionBoard {
    var sessions: map<string, Entry>
    var order: seq<string>

    ghost predicate Valid()
      reads this
    {
      && (forall i, j :: 0 <= i < j < |order| ==> order[i] != order[j])
      && (forall k :: k in order ==> k in sessions)
      && (forall k :: k in sessions ==> k in order)
    }

    constructor ()
      ensures Valid() && sessions == map[] && order == []
    {
      sessions := map[];
      order := [];
    }

    /** The `live_status` handler: merges the payload into its session's
      entry, creating it at the end of the key order when unseen. */
    method ApplyStatus(ev: StatusEvent)
      requires Valid()
      modifies this
      ensures Valid()
      ensures sessions == old(sessions)[ev.sessionId := MergeStatus(Existing(old(sessions), ev.sessionId), ev)]
      ensures order == if ev.sessionId in old(sessions) then old(order) else old(order) + [ev.sessionId]
    {
      var id := ev.sessionId;
      var existing := Existing(sessions, id);
      if id !in sessions {
        order := order + [id];
      }
      sessions := sessions[id := MergeStatus(existing, ev)];
    }

    /** The `new_alert` handler: appends the raw alert to its session's list,
      creating the session with just that alert when unseen. */
    method ApplyAlert(a: RawAlert)
      requires Valid()
      modifies this
      ensures Valid()
      ensures var id := AlertSessionKey(a);
        && sessions == old(sessions)[id := AppendAlert(Existing(old(sessions), id), a)]
        && order == (if id in old(sessions) then old(order) else old(order) + [id])
        && sessions[id].alerts == Existing(old(sessions), id).alerts + [a]
        && |sessions[id].alerts| == |Existing(old(sessions), id).alerts| + 1
        && sessions[id].fields == Existing(old(sessions), id).fields
    {
      var id := AlertSessionKey(a);
      var existing := Existing(sessions, id);
      if id !in sessions {
        order := order + [id];
      }
      sessions := sessions[id := AppendAlert(existing, a)];
    }

    /** `sortedSessions` */
    function SortedSessions(): (rows: seq<SessionRow>)
      reads this
      requires Valid()
      ensures multiset(rows) == multiset(EntriesOf(order, sessions))
      ensures RankedDescending(rows)
      ensures forall t :: ByTier(rows, t) == ByTier(EntriesOf(order, sessions), t)
    {
      SortSessionsCorrect(EntriesOf(order, sessions));
      SortSessions(EntriesOf(order, sessions))
    }

    /** The "Flagged Sessions" figure: the HIGH-tier sessions of the ranked
      list, no more than the "Active Sessions" figure. */
    function FlaggedCount(): (n: nat)
      reads this
      requires Valid()
      ensures n == |ByTier(EntriesOf(order, sessions), High)|
      ensures n <= |SortedSessions()| == |order|
    {
      var rows := SortedSessions();
      assert |rows| == |multiset(rows)| == |EntriesOf(order, sessions)|;
      |ByTier(rows, High)|
    }
  }

  // ---------------------------------------------------------------------------
  // Behavioural verdict over the mock window labels

  const MockBehavioralLabels: seq<string> := ["normal", "suspicious", "normal", "suspicious", "suspicious"]

  /** `finalBehavior` */
  function FinalBehavior(labels: seq<string>): (r: string)
    ensures r == "CHEATING" <==> Behavior.SuspiciousCount(labels) >= 3
    ensures r == "NORMAL" <==> Behavior.SuspiciousCount(labels) < 3
  {
    match Behavior.LabelVerdict(labels)
    case Cheating => "CHEATING"
    case Normal => "NORMAL"
  }

  /** The mock windows hold three suspicious labels, exactly the threshold. */
  lemma MockFinalBehavior()
    ensures Behavior.SuspiciousCount(MockBehavioralLabels) == 3
    ensures FinalBehavior(MockBehavioralLabels) == "CHEATING"
  {
    var s := MockBehavioralLabels;
    assert s == ["normal", "suspicious"] + ["normal", "suspicious", "suspicious"];
    Counting.CountAppend(["normal", "suspicious"], ["normal", "suspicious", "suspicious"], Behavior.IsSuspicious);
  }
}
