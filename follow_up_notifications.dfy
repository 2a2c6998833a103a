/** The follow-up reminder: every check walks the upcoming follow-ups in order and raises the
    first reminder due for one of four windows before the follow-up time (10 minutes, 5 minutes,
    1 minute, now) that has not been raised before for that lead. The clock is the parameter
    `now`; the 15-second timer that repeats the check is left to the caller. */
module FollowUpNotifications {
  import opened Common

  type LeadId = nat

  /** A lead from the upcoming follow-ups query; a missing date and the date 0 are both falsy and
      skipped. */
  datatype FollowUp = FollowUp(id: LeadId, nextFollowUpDate: Option<int>)

  datatype Window = TenMinutes | FiveMinutes | OneMinute | Now

  /** `${leadId}-10min` and the other keys of the shown set. */
  datatype Key = Key(lead: LeadId, window: Window)

  datatype Notification = Notification(lead: FollowUp, timeType: string, message: string)

  predicate Dated(l: FollowUp) {
    l.nextFollowUpDate.Some? && l.nextFollowUpDate.value != 0
  }

  /** The window bounds in milliseconds, for t = follow-up time − now. */
  predicate InWindow(w: Window, t: int) {
    match w
    case TenMinutes => 570_000 < t <= 630_000
    case FiveMinutes => 270_000 < t <= 330_000
    case OneMinute => 30_000 < t <= 90_000
    case Now => -15_000 <= t <= 30_000
  }

  /** The window `t` lies in, if any: the windows do not overlap. */
  function WindowOf(t: int): (w: Option<Window>)
    ensures forall v :: w == Some(v) <==> InWindow(v, t)
  {
    if 570_000 < t <= 630_000 then Some(TenMinutes)
    else if 270_000 < t <= 330_000 then Some(FiveMinutes)
    else if 30_000 < t <= 90_000 then Some(OneMinute)
    else if -15_000 <= t <= 30_000 then Some(Now)
    else None
  }

  function TimeType(w: Window): string {
    match w
    case TenMinutes => "10 minutes"
    case FiveMinutes => "5 minutes"
    case OneMinute => "1 minute"
    case Now => "now"
  }

  function Message(w: Window): string {
    match w
    case TenMinutes => "Follow-up in 10 minutes"
    case FiveMinutes => "Follow-up in 5 minutes"
    case OneMinute => "Follow-up in 1 minute"
    case Now => "Follow-up time is NOW!"
  }

  /** The reminder due for lead `l` at `now` that has not been shown yet. */
  predicate NewMatch(l: FollowUp, now: int, shown: set<Key>, w: Window) {
    Dated(l) && InWindow(w, l.nextFollowUpDate.value - now) && Key(l.id, w) !in shown
  }

  /** The first new reminder among `leads[from..]`: the lead's position and its window. */
  function FirstNew(leads: seq<FollowUp>, now: int, shown: set<Key>, from: nat): (r: Option<(nat, Window)>)
    requires from <= |leads|
    ensures r.Some? ==> from <= r.value.0 < |leads| && NewMatch(leads[r.value.0], now, shown, r.value.1)
    ensures r.Some? ==> forall k, w :: from <= k < r.value.0 ==> !NewMatch(leads[k], now, shown, w)
    ensures r.None? ==> forall k, w :: from <= k < |leads| ==> !NewMatch(leads[k], now, shown, w)
    decreases |leads| - from
  {
    if from == |leads| then None
    else
      var l := leads[from];
      var w := if Dated(l) then WindowOf(l.nextFollowUpDate.value - now) else None;
      if w.Some? && Key(l.id, w.value) !in shown then Some((from, w.value))
      else FirstNew(leads, now, shown, from + 1)
  }

  /** What a check does to the shown set and the reminder on screen. */
  function CheckResult(leads: seq<FollowUp>, now: int, shown: set<Key>, current: Option<Notification>)
    : (r: (set<Key>, Option<Notification>))
  {
    match FirstNew(leads, now, shown, 0)
    case None => (shown, current)
    case Some((k, w)) => (shown + {Key(leads[k].id, w)}, Some(Notification(leads[k], TimeType(w), Message(w))))
  }

  /** A check raises at most one key, one that was not shown before, and keeps the keys shown
      before. */
  lemma CheckRaisesAtMostOneNewKey(leads: seq<FollowUp>, now: int, shown: set<Key>, current: Option<Notification>)
    ensures var r := CheckResult(leads, now, shown, current);
      shown <= r.0 && |r.0| <= |shown| + 1
      && (r.0 == shown <==> r.1 == current && FirstNew(leads, now, shown, 0).None?)
      && forall key :: key in r.0 - shown ==> r.1 == Some(Notification(leads[FirstNew(leads, now, shown, 0).value.0],
                                                                      TimeType(key.window), Message(key.window)))
  {
    match FirstNew(leads, now, shown, 0)
    case None =>
    case Some((k, w)) =>
      var key := Key(leads[k].id, w);
      assert key !in shown;
      assert shown + {key} - shown == {key};
  }

  /** The key a check raises, if any; it is never one already shown. */
  function NewKey(leads: seq<FollowUp>, now: int, shown: set<Key>): (key: Option<Key>)
    ensures key.Some? ==> key.value !in shown
    ensures key.None? <==> FirstNew(leads, now, shown, 0).None?
  {
    var first := FirstNew(leads, now, shown, 0);
    if first.None? then None else Some(Key(leads[first.value.0].id, first.value.1))
  }

  /** The keys raised by a run of checks, in order. */
  function Raised(checks: seq<(seq<FollowUp>, int)>, shown: set<Key>): (keys: seq<Key>)
    decreases |checks|
  {
    if checks == [] then []
    else
      var key := NewKey(checks[0].0, checks[0].1, shown);
      if key.None? then Raised(checks[1..], shown)
      else [key.value] + Raised(checks[1..], shown + {key.value})
  }

  predicate Distinct(keys: seq<Key>) {
    forall i, j :: 0 <= i < j < |keys| ==> keys[i] != keys[j]
  }

  predicate NoneShown(keys: seq<Key>, shown: set<Key>) {
    forall i :: 0 <= i < |keys| ==> keys[i] !in shown
  }

  /** However often the follow-ups are checked, no key is raised twice and none of those shown
      at the start is raised again. */
  lemma {:induction false} NoReminderTwice(checks: seq<(seq<FollowUp>, int)>, shown: set<Key>)
    ensures Distinct(Raised(checks, shown)) && NoneShown(Raised(checks, shown), shown)
    decreases |checks|
  {
    if checks != [] {
      var key := NewKey(checks[0].0, checks[0].1, shown);
      if key.None? {
        NoReminderTwice(checks[1..], shown);
      } else {
        NoReminderTwice(checks[1..], shown + {key.value});
        var rest := Raised(checks[1..], shown + {key.value});
        var keys := [key.value] + rest;
        forall i | 0 <= i < |keys|
          ensures keys[i] !in shown
        {
          if i > 0 { assert keys[i] == rest[i - 1]; }
        }
        forall i, j | 0 <= i < j < |keys|
          ensures keys[i] != keys[j]
        {
          assert keys[j] == rest[j - 1];
          if i > 0 { assert keys[i] == rest[i - 1]; }
        }
      }
    }
  }

  /** The reminder component's state: the keys shown so far and the reminder on screen. */
  class FollowUpNotifier {
    var shownNotifications: set<Key>
    var currentNotification: Option<Notification>

    constructor()
      ensures shownNotifications == {} && currentNotification == None
    {
      shownNotifications := {};
      currentNotification := None;
    }

    /** `checkFollowUps`: the four windows are checked in order for each lead, and the first
        reminder not shown yet is raised and ends the check. */
    method CheckFollowUps(upcomingFollowUps: seq<FollowUp>, now: int)
      modifies this
      ensures (shownNotifications, currentNotification)
        == CheckResult(upcomingFollowUps, now, old(shownNotifications), old(currentNotification))
    {
      var i := 0;
      while i < |upcomingFollowUps|
        invariant 0 <= i <= |upcomingFollowUps|
        invariant FirstNew(upcomingFollowUps, now, shownNotifications, i)
          == FirstNew(upcomingFollowUps, now, shownNotifications, 0)
        invariant shownNotifications == old(shownNotifications) && currentNotification == old(currentNotification)
      {
        var lead := upcomingFollowUps[i];
        if !Dated(lead) {
          i := i + 1;
          continue;
        }
        var timeUntil := lead.nextFollowUpDate.value - now;
        if 570_000 < timeUntil <= 630_000 && Key(lead.id, TenMinutes) !in shownNotifications {
          Raise(lead, TenMinutes);
          return;
        }
        if 270_000 < timeUntil <= 330_000 && Key(lead.id, FiveMinutes) !in shownNotifications {
          Raise(lead, FiveMinutes);
          return;
        }
        if 30_000 < timeUntil <= 90_000 && Key(lead.id, OneMinute) !in shownNotifications {
          Raise(lead, OneMinute);
          return;
        }
        if -15_000 <= timeUntil <= 30_000 && Key(lead.id, Now) !in shownNotifications {
          Raise(lead, Now);
          return;
        }
        i := i + 1;
      }
    }

    method Raise(lead: FollowUp, w: Window)
      modifies this
      ensures shownNotifications == old(shownNotifications) + {Key(lead.id, w)}
      ensures currentNotification == Some(Notification(lead, TimeType(w), Message(w)))
    {
      currentNotification := Some(Notification(lead, TimeType(w), Message(w)));
      shownNotifications := shownNotifications + {Key(lead.id, w)};
    }

    /** `handleClose`: the reminder is dismissed; the keys stay shown. */
    method HandleClose()
      modifies this
      ensures currentNotification == None && shownNotifications == old(shownNotifications)
    {
      currentNotification := None;
    }
  }
}
