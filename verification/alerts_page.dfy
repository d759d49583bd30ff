/** The alerts page: each alert's age in words, the three severity groups,
    and one column per kind of disaster. */
module AlertsPage {
  import opened Common
  import LiveAlerts

  type Severity = LiveAlerts.Severity
  type Kind = LiveAlerts.EventType

  datatype Alert = Alert(id: string, kind: Kind, severity: Severity, timestamp: int)

  // ---------------------------------------------------------------------
  // formatTimeAgo

  datatype Unit = Minutes | Hours | Days

  function UnitMs(u: Unit): nat {
    match u
    case Minutes => 60000
    case Hours => 3600000
    case Days => 86400000
  }

  /** The age in the largest unit the page uses for it: minutes under an hour, hours under a day,
      else days, each rounded down (JavaScript's `Math.floor`, also for a date in the future). */
  function Elapsed(diffMs: int): (r: (int, Unit))
    ensures r.0 * UnitMs(r.1) <= diffMs < (r.0 + 1) * UnitMs(r.1)
    ensures r.1 == Minutes <==> diffMs < 3600000
    ensures r.1 == Hours <==> 3600000 <= diffMs < 86400000
    ensures r.1 == Minutes ==> r.0 < 60
    ensures r.1 == Hours ==> 1 <= r.0 < 24
    ensures r.1 == Days ==> r.0 >= 1
  {
    var mins := diffMs / 60000;
    var hours := diffMs / 3600000;
    var days := diffMs / 86400000;
    if mins < 60 then (mins, Minutes)
    else if hours < 24 then (hours, Hours)
    else (days, Days)
  }

  /** The end of a label: the unit's word, singular exactly for 1, and " ago". */
  function UnitTail(u: Unit, amount: int): (t: string)
    ensures u == Minutes ==> t == " minute ago" || t == " minutes ago"
    ensures u == Hours ==> t == " hour ago" || t == " hours ago"
    ensures u == Days ==> t == " day ago" || t == " days ago"
    ensures |t| >= 5 && t[|t| - 4..] == " ago" && (t[|t| - 5] == 's' <==> amount != 1)
  {
    match u
    case Minutes => if amount == 1 then " minute ago" else " minutes ago"
    case Hours => if amount == 1 then " hour ago" else " hours ago"
    case Days => if amount == 1 then " day ago" else " days ago"
  }

  /** `formatTimeAgo`: the label reads "<n> <unit>s ago" unless n is exactly 1. */
  function FormatTimeAgo(now: int, timestamp: int): (r: string)
    ensures |r| >= 5 && r[|r| - 4..] == " ago" && (r[|r| - 5] == 's' <==> Elapsed(now - timestamp).0 != 1)
    ensures var e := Elapsed(now - timestamp);
      var t := UnitTail(e.1, e.0);
      |t| <= |r| && r[..|r| - |t|] == IntToString(e.0)
  {
    var (amount, u) := Elapsed(now - timestamp);
    var t := UnitTail(u, amount);
    var r := IntToString(amount) + t;
    assert r[|r| - |t|..] == t;
    assert r[..|r| - |t|] == IntToString(amount);
    r
  }

  predicate EndsWith(s: string, suffix: string) {
    |suffix| <= |s| && s[|s| - |suffix|..] == suffix
  }

  /** Whatever the delay, the label names the page's unit for it: minutes under an hour,
      hours from an hour to a day, days from a day on (a future date reads in minutes). */
  lemma LabelNamesUnit(now: int, timestamp: int)
    ensures var d := now - timestamp;
      var r := FormatTimeAgo(now, timestamp);
      && (d < 3600000 ==> EndsWith(r, " minute ago") || EndsWith(r, " minutes ago"))
      && (3600000 <= d < 86400000 ==> EndsWith(r, " hour ago") || EndsWith(r, " hours ago"))
      && (86400000 <= d ==> EndsWith(r, " day ago") || EndsWith(r, " days ago"))
  {
    var e := Elapsed(now - timestamp);
    var tail := UnitTail(e.1, e.0);
    assert FormatTimeAgo(now, timestamp) == IntToString(e.0) + tail;
    EndsWithTail(IntToString(e.0), tail);
  }

  lemma EndsWithTail(head: string, tail: string)
    ensures EndsWith(head + tail, tail)
  {
    assert (head + tail)[|head + tail| - |tail|..] == tail;
  }

  // ---------------------------------------------------------------------
  // Groups and columns

  function SeverityIs(s: Severity): Alert -> bool {
    (a: Alert) => a.severity == s
  }

  function KindIs(k: Kind): Alert -> bool {
    (a: Alert) => a.kind == k
  }

  /** The alerts of one severity, in page order. */
  function SeverityGroup(alerts: seq<Alert>, s: Severity): (r: seq<Alert>)
    ensures forall a :: a in r <==> a in alerts && a.severity == s
  {
    Filter(alerts, SeverityIs(s))
  }

  /** The alerts of one kind, in page order: one column of the page. */
  function Column(alerts: seq<Alert>, k: Kind): (r: seq<Alert>)
    ensures forall a :: a in r <==> a in alerts && a.kind == k
  {
    Filter(alerts, KindIs(k))
  }

  /** The three severity groups together hold every alert once. */
  lemma {:induction false} GroupsPartition(alerts: seq<Alert>)
    ensures |SeverityGroup(alerts, LiveAlerts.High)| + |SeverityGroup(alerts, LiveAlerts.Medium)| +
      |SeverityGroup(alerts, LiveAlerts.Low)| == |alerts|
  {
    if alerts != [] {
      GroupsPartition(alerts[1..]);
    }
  }

  /** The three columns together hold every alert once. */
  lemma {:induction false} ColumnsPartition(alerts: seq<Alert>)
    ensures |Column(alerts, LiveAlerts.Earthquake)| + |Column(alerts, LiveAlerts.Flood)| +
      |Column(alerts, LiveAlerts.Cyclone)| == |alerts|
  {
    if alerts != [] {
      ColumnsPartition(alerts[1..]);
    }
  }
}
