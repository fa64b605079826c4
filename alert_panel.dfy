/** The monitoring alert panel: a list of alerts that can be acknowledged
    or dismissed, a filter that hides handled alerts, a count of the alerts
    still needing attention, and relative ages ("5m ago"). */
module AlertPanel {
  import opened Common

  datatype AlertType = Critical | Warning | Info | Resolved

  /** An alert; `timestampMs` is its time in milliseconds. */
  datatype Alert = Alert(
    id: string,
    kind: AlertType,
    title: string,
    message: string,
    timestampMs: int,
    vpsId: Option<string>,
    acknowledged: bool)

  datatype AlertFilter = All | Unacknowledged

  /** The alerts the panel starts with, dated relative to the time
      `loadedAt` the module was loaded. */
  function MockAlerts(loadedAt: int): (r: seq<Alert>)
    ensures |r| == 4
  {
    [Alert("1", Critical, "High CPU Usage", "VPS-001 CPU usage has exceeded 90% for the last 15 minutes",
           loadedAt - 300000, Some("VPS-001"), false),
     Alert("2", Warning, "Low Disk Space", "VPS-002 has less than 10% disk space remaining",
           loadedAt - 600000, Some("VPS-002"), false),
     Alert("3", Info, "Scheduled Maintenance", "Network maintenance scheduled for tonight 2:00 AM - 4:00 AM EST",
           loadedAt - 3600000, None, true),
     Alert("4", Resolved, "Network Connectivity Restored", "Network issues affecting EU-West datacenter have been resolved",
           loadedAt - 7200000, None, true)]
  }

  /** An alert still needs attention: not acknowledged and not resolved.
      Such alerts carry the Acknowledge button. */
  predicate NeedsAttention(a: Alert)
  {
    !a.acknowledged && a.kind != Resolved
  }

  /** The number shown on the panel's badge. */
  function PendingCount(alerts: seq<Alert>): (n: nat)
    ensures n <= |alerts|
    ensures n == 0 <==> forall i :: 0 <= i < |alerts| ==> !NeedsAttention(alerts[i])
  {
    if alerts == [] then 0
    else (if NeedsAttention(alerts[0]) then 1 else 0) + PendingCount(alerts[1..])
  }

  predicate UniqueIds(alerts: seq<Alert>)
  {
    forall i, j :: 0 <= i < j < |alerts| ==> alerts[i].id != alerts[j].id
  }

  /** Acknowledging marks every alert with that id as acknowledged and
      changes nothing else. */
  function Acknowledge(alerts: seq<Alert>, id: string): (r: seq<Alert>)
    ensures |r| == |alerts|
    ensures forall i :: 0 <= i < |alerts| ==>
      r[i] == if alerts[i].id == id then alerts[i].(acknowledged := true) else alerts[i]
  {
    seq(|alerts|, i requires 0 <= i < |alerts| =>
      if alerts[i].id == id then alerts[i].(acknowledged := true) else alerts[i])
  }

  /** Acknowledging twice is acknowledging once. */
  lemma AcknowledgeIdempotent(alerts: seq<Alert>, id: string)
    ensures Acknowledge(Acknowledge(alerts, id), id) == Acknowledge(alerts, id)
  {
  }

  /** With distinct ids, acknowledging an alert that needs attention lowers
      the badge count by exactly one; acknowledging anything else leaves it. */
  lemma {:induction false} AcknowledgeCount(alerts: seq<Alert>, id: string)
    requires UniqueIds(alerts)
    ensures PendingCount(Acknowledge(alerts, id)) ==
      if exists i :: 0 <= i < |alerts| && alerts[i].id == id && NeedsAttention(alerts[i])
      then PendingCount(alerts) - 1 else PendingCount(alerts)
  {
    if alerts != [] {
      var rest := alerts[1..];
      AcknowledgeCount(rest, id);
      assert Acknowledge(alerts, id)[1..] == Acknowledge(rest, id);
      if alerts[0].id == id {
        forall i | 0 <= i < |rest|
          ensures rest[i].id != id
        {
          assert alerts[i + 1] == rest[i];
        }
        NoMatchUnchanged(rest, id);
      } else {
        var e1 := exists i :: 0 <= i < |alerts| && alerts[i].id == id && NeedsAttention(alerts[i]);
        var e2 := exists i :: 0 <= i < |rest| && rest[i].id == id && NeedsAttention(rest[i]);
        assert e1 ==> e2 by {
          if e1 {
            var i :| 0 <= i < |alerts| && alerts[i].id == id && NeedsAttention(alerts[i]);
            assert rest[i - 1] == alerts[i];
          }
        }
        assert e2 ==> e1 by {
          if e2 {
            var i :| 0 <= i < |rest| && rest[i].id == id && NeedsAttention(rest[i]);
            assert alerts[i + 1] == rest[i];
          }
        }
      }
    }
  }

  lemma NoMatchUnchanged(alerts: seq<Alert>, id: string)
    requires forall i :: 0 <= i < |alerts| ==> alerts[i].id != id
    ensures Acknowledge(alerts, id) == alerts
  {
  }

  /** Dismissing removes every alert with that id and keeps the others in
      order. */
  function Dismiss(alerts: seq<Alert>, id: string): (r: seq<Alert>)
    ensures IsSubseq(r, alerts)
    ensures forall i :: 0 <= i < |r| ==> r[i].id != id
    ensures forall i :: 0 <= i < |alerts| && alerts[i].id != id ==> alerts[i] in r && multiset(r)[alerts[i]] == multiset(alerts)[alerts[i]]
    ensures multiset(r) <= multiset(alerts)
  {
    var keep := (a: Alert) => a.id != id;
    FilterIsSubseq(alerts, keep);
    Filter(alerts, keep)
  }

  /** The alerts the list shows. */
  function Visible(alerts: seq<Alert>, f: AlertFilter): (r: seq<Alert>)
    ensures f == All ==> r == alerts
    ensures IsSubseq(r, alerts)
    ensures f == Unacknowledged ==> forall i :: 0 <= i < |r| ==> NeedsAttention(r[i])
    ensures f == Unacknowledged ==> forall i :: 0 <= i < |alerts| && NeedsAttention(alerts[i]) ==> alerts[i] in r && multiset(r)[alerts[i]] == multiset(alerts)[alerts[i]]
    ensures multiset(r) <= multiset(alerts)
  {
    if f == All then
      SubseqRefl(alerts);
      alerts
    else
      FilterIsSubseq(alerts, NeedsAttention);
      Filter(alerts, NeedsAttention)
  }

  /** The filtered list is exactly as long as the badge count says. */
  lemma {:induction false} BadgeCountsFilteredList(alerts: seq<Alert>)
    ensures |Visible(alerts, Unacknowledged)| == PendingCount(alerts)
  {
    if alerts != [] {
      BadgeCountsFilteredList(alerts[1..]);
    }
  }

  /** The age text of an alert at time `nowMs`: whole days, else whole
      hours, else whole minutes, else "Just now" (also for future times). */
  function FormatTime(nowMs: int, timestampMs: int): (r: string)
    ensures var diff := nowMs - timestampMs;
      (diff >= 86400000 ==> r == NatToString(diff / 86400000) + "d ago")
      && (3600000 <= diff < 86400000 ==> r == NatToString(diff / 3600000) + "h ago")
      && (60000 <= diff < 3600000 ==> r == NatToString(diff / 60000) + "m ago")
      && (diff < 60000 ==> r == "Just now")
  {
    var diff := nowMs - timestampMs;
    var minutes := diff / 60000;
    var hours := minutes / 60;
    var days := hours / 24;
    if days > 0 then NatToString(days) + "d ago"
    else if hours > 0 then NatToString(hours) + "h ago"
    else if minutes > 0 then NatToString(minutes) + "m ago"
    else "Just now"
  }

  /** Right after loading, the sample alerts read 5 and 10 minutes, and 1
      and 2 hours, old. */
  lemma MockAlertAges(loadedAt: int)
    ensures FormatTime(loadedAt, MockAlerts(loadedAt)[0].timestampMs) == "5m ago"
    ensures FormatTime(loadedAt, MockAlerts(loadedAt)[1].timestampMs) == "10m ago"
    ensures FormatTime(loadedAt, MockAlerts(loadedAt)[2].timestampMs) == "1h ago"
    ensures FormatTime(loadedAt, MockAlerts(loadedAt)[3].timestampMs) == "2h ago"
  {
    var a := MockAlerts(loadedAt);
    AgeText(loadedAt, a[0].timestampMs, 300000);
    AgeText(loadedAt, a[1].timestampMs, 600000);
    assert NatToString(10) == "10" by {
      assert NatToString(1) == "1";
      assert NatToString(0) == "0";
    }
    AgeText(loadedAt, a[2].timestampMs, 3600000);
    AgeText(loadedAt, a[3].timestampMs, 7200000);
  }

  /** An age below one day reads in whole hours, else in whole minutes. */
  lemma AgeText(nowMs: int, timestampMs: int, ageMs: nat)
    requires nowMs - timestampMs == ageMs && 60000 <= ageMs < 86400000
    ensures ageMs < 3600000 ==> FormatTime(nowMs, timestampMs) == NatToString(ageMs / 60000) + "m ago"
    ensures ageMs >= 3600000 ==> FormatTime(nowMs, timestampMs) == NatToString(ageMs / 3600000) + "h ago"
  {
  }

  /** Two of the sample alerts need attention. */
  lemma MockAlertsPending(loadedAt: int)
    ensures PendingCount(MockAlerts(loadedAt)) == 2
  {
    var a := MockAlerts(loadedAt);
    assert a[1..][1..][1..][1..] == [];
  }

  /** The panel's state. */
  class AlertPanelState {
    var alerts: seq<Alert>
    var filter: AlertFilter

    constructor (loadedAt: int)
      ensures alerts == MockAlerts(loadedAt) && filter == Unacknowledged
    {
      alerts := MockAlerts(loadedAt);
      filter := Unacknowledged;
    }

    method AcknowledgeAlert(id: string)
      modifies this
      ensures alerts == Acknowledge(old(alerts), id) && filter == old(filter)
    {
      alerts := Acknowledge(alerts, id);
    }

    method DismissAlert(id: string)
      modifies this
      ensures alerts == Dismiss(old(alerts), id) && filter == old(filter)
    {
      alerts := Dismiss(alerts, id);
    }

    method SetFilter(f: AlertFilter)
      modifies this
      ensures filter == f && alerts == old(alerts)
    {
      filter := f;
    }
  }
}
