/** Edge-triggered, debounced alerting on a domain's deliverability status. */
module Alerts {
  import opened Text

  datatype Status = Good | Info | Warning | Error

  /** A row of domain_alert_state. */
  datatype Row = Row(lastAlerted: Status, pending: Option<Status>, consecutive: nat)

  datatype Kind = Regression | Recovery

  datatype Event = Event(kind: Kind, was: Status)

  /** One evaluation against the stored row, for a debounce threshold k. */
  function Step(row: Option<Row>, now: Status, k: int): (Row, Option<Event>)
  {
    match row
    case None => (Row(now, None, 0), None)
    case Some(st) =>
      if now == st.lastAlerted then (Row(st.lastAlerted, None, 0), None)
      else
        var consecutive := if st.pending == Some(now) then st.consecutive + 1 else 1;
        if consecutive < k then (Row(st.lastAlerted, Some(now), consecutive), None)
        else (Row(now, None, 0), Some(Event(if now.Good? then Recovery else Regression, st.lastAlerted)))
  }

  class AlertStore {
    var rows: map<string, Row>
    const debounce: int

    constructor (debounce: int)
      ensures rows == map[] && this.debounce == debounce
    {
      rows := map[];
      this.debounce := debounce;
    }

    function Get(domain: string): Option<Row>
      reads this
    {
      if domain in rows then Some(rows[domain]) else None
    }

    /** `evalTransition`: read the row, write it back, report a transition. */
    method EvalTransition(domain: string, now: Status) returns (event: Option<Event>)
      modifies this
      ensures rows == old(rows)[domain := Step(old(Get(domain)), now, debounce).0]
      ensures event == Step(old(Get(domain)), now, debounce).1
    {
      if domain !in rows {
        rows := rows[domain := Row(now, None, 0)];
        return None;
      }
      var st := rows[domain];
      if now == st.lastAlerted {
        rows := rows[domain := Row(st.lastAlerted, None, 0)];
        return None;
      }
      var consecutive := 1;
      if st.pending == Some(now) {
        consecutive := st.consecutive + 1;
      }
      if consecutive < debounce {
        rows := rows[domain := Row(st.lastAlerted, Some(now), consecutive)];
        return None;
      }
      rows := rows[domain := Row(now, None, 0)];
      event := Some(Event(if now.Good? then Recovery else Regression, st.lastAlerted));
    }
  }

  // ---- The specification: the whole history ----------------------------------------------

  function Last(h: seq<Status>): Status
    requires h != []
  {
    h[|h| - 1]
  }

  /** The last k statuses are there and are all the same. */
  predicate Steady(h: seq<Status>, k: nat)
  {
    k <= |h| && forall i :: |h| - k <= i < |h| ==> h[i] == Last(h)
  }

  function Threshold(k: int): nat
  {
    if k < 1 then 1 else k
  }

  /** What was last alerted; the first status ever seen counts as known. */
  function Alerted(h: seq<Status>, k: int): Status
    requires h != []
    decreases |h|, 1
  {
    if |h| == 1 || Due(h, k) then Last(h) else Alerted(h[..|h| - 1], k)
  }

  /** An alert is due: k equal statuses that differ from what was last alerted. */
  predicate Due(h: seq<Status>, k: int)
    decreases |h|, 0
  {
    |h| >= 2 && Steady(h, Threshold(k)) && Last(h) != Alerted(h[..|h| - 1], k)
  }

  /** The stored row after a history. */
  function RowAfter(h: seq<Status>, k: int): Option<Row>
  {
    if h == [] then None else Some(Step(RowAfter(h[..|h| - 1], k), Last(h), k).0)
  }

  function EventAt(h: seq<Status>, k: int): Option<Event>
    requires h != []
  {
    Step(RowAfter(h[..|h| - 1], k), Last(h), k).1
  }

  /** The length of the run of equal statuses at the end. */
  function RunLength(h: seq<Status>): (n: nat)
    requires h != []
    ensures 1 <= n <= |h| && Steady(h, n) && (n < |h| ==> h[|h| - 1 - n] != Last(h))
  {
    if |h| == 1 || h[|h| - 2] != Last(h) then 1
    else
      var n := RunLength(h[..|h| - 1]);
      assert forall i :: |h| - 1 - n <= i < |h| - 1 ==> h[i] == h[..|h| - 1][i];
      n + 1
  }

  lemma SteadyIffRun(h: seq<Status>, k: nat)
    requires h != []
    ensures Steady(h, k) <==> k <= RunLength(h)
  {
    var n := RunLength(h);
    assert k > n && k <= |h| ==> h[|h| - 1 - n] != Last(h) && |h| - k <= |h| - 1 - n < |h|;
  }

  /** The row is a digest of the whole history. */
  predicate Digest(row: Row, h: seq<Status>, k: int)
    requires h != []
  {
    && row.lastAlerted == Alerted(h, k)
    && (if Last(h) == Alerted(h, k) then row.pending == None && row.consecutive == 0
        else row.pending == Some(Last(h)) && row.consecutive == RunLength(h))
  }

  lemma {:induction false} RowIsDigest(h: seq<Status>, k: int)
    requires h != []
    ensures Digest(RowAfter(h, k).value, h, k)
    decreases |h|
  {
    var n := |h| - 1;
    if n > 0 {
      RowIsDigest(h[..n], k);
      SteadyIffRun(h, Threshold(k));
    } else {
      assert RowAfter(h[..0], k) == None;
    }
  }

  /** For every threshold and every history: an alert fires exactly when it is due, it names the
      previously alerted status, and it is a recovery exactly when the new status is good. */
  lemma FiresExactlyWhenDue(h: seq<Status>, k: int)
    requires h != []
    ensures EventAt(h, k).Some? <==> Due(h, k)
    ensures Due(h, k) ==>
              && EventAt(h, k).value.was == Alerted(h[..|h| - 1], k)
              && Alerted(h, k) == Last(h) != EventAt(h, k).value.was
              && (EventAt(h, k).value.kind.Recovery? <==> Last(h).Good?)
  {
    var n := |h| - 1;
    if n > 0 {
      RowIsDigest(h[..n], k);
      SteadyIffRun(h, Threshold(k));
    } else {
      assert RowAfter(h[..0], k) == None;
    }
  }

  /** A status that has held for k checks is the alerted one: a lasting change is never missed. */
  lemma LastingChangesAreAlerted(h: seq<Status>, k: int)
    requires h != [] && Steady(h, Threshold(k))
    ensures Alerted(h, k) == Last(h)
  {
    if |h| > 1 && !Due(h, k) {
      assert Alerted(h, k) == Alerted(h[..|h| - 1], k);
    }
  }

  lemma {:induction false} AlertedHolds(h: seq<Status>, m: nat, k: int)
    requires 1 <= m <= |h| && forall i :: m <= i < |h| ==> h[i] == Alerted(h[..m], k)
    ensures Alerted(h, k) == Alerted(h[..m], k)
    decreases |h|
  {
    if m < |h| {
      assert h[..|h| - 1][..m] == h[..m];
      AlertedHolds(h[..|h| - 1], m, k);
    } else {
      assert h[..m] == h;
    }
  }

  /** No flapping: two alerts are at least k checks apart. */
  lemma AlertsAreApart(h: seq<Status>, m: nat, k: int)
    requires 1 <= m < |h| && Due(h[..m], k) && Due(h, k)
    ensures |h| - m >= Threshold(k)
  {
    if |h| - m < Threshold(k) {
      var n := |h| - 1;
      assert h[..m][m - 1] == h[m - 1] == Last(h);
      assert Alerted(h[..m], k) == Last(h);
      assert h[..n][..m] == h[..m];
      AlertedHolds(h[..n], m, k);
    }
  }
}
