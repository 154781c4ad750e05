/** The sidebar (Sidebar.tsx): the task duration and "time ago" texts, the
    status label of a task and the new-task form. The clock is the
    parameter `now` and date parsing the parameter `parse` (milliseconds,
    `None` for an invalid date). */
module Sidebar {
  import opened Common

  /** `formatTime`: whole minutes and the remaining seconds, `"{m}m {s}s"`. */
  function FormatTime(seconds: nat): (r: string)
    ensures var (m, s) := SplitMinutes(seconds);
      r == NatToString(m) + "m " + NatToString(s) + "s" && m * 60 + s == seconds && s < 60
  {
    var (m, s) := SplitMinutes(seconds);
    NatToString(m) + "m " + NatToString(s) + "s"
  }

  const Minute := 60 * 1000
  const Hour := 60 * Minute
  const Day := 24 * Hour

  /** What `formatRelativeTime` shows, before it is turned into text. */
  datatype Relative = NoTime | JustNow | MinutesAgo(n: int) | HoursAgo(n: int) | DaysAgo(n: int)

  /** `formatRelativeTime`: no time for a missing, empty or unparseable
      timestamp; "just now" under a minute (and for a time in the future);
      then rounded minutes under an hour, rounded hours under a day and
      rounded days. */
  function RelativeTime(timestamp: Option<string>, parse: string -> Option<int>, now: int): (r: Relative)
    ensures r.NoTime? <==> timestamp.None? || timestamp.value == "" || parse(timestamp.value).None?
    ensures !r.NoTime? ==> var diff := now - parse(timestamp.value).value;
      && (r.JustNow? <==> diff < Minute)
      && (r.MinutesAgo? <==> Minute <= diff < Hour)
      && (r.HoursAgo? <==> Hour <= diff < Day)
      && (r.DaysAgo? <==> Day <= diff)
    ensures r.MinutesAgo? ==> 1 <= r.n <= 60
    ensures r.HoursAgo? ==> 1 <= r.n <= 24
    ensures r.DaysAgo? ==> r.n >= 1
  {
    if timestamp.None? || timestamp.value == "" then NoTime
    else match parse(timestamp.value)
      case None => NoTime
      case Some(value) =>
        var diff := now - value;
        if diff < Minute then JustNow
        else if diff < Hour then MinutesAgo(RoundedUnits(diff, Minute))
        else if diff < Day then HoursAgo(RoundedUnits(diff, Hour))
        else DaysAgo(RoundedUnits(diff, Day))
  }

  /** `Math.round(diff / unit)`. */
  function RoundedUnits(diff: int, unit: int): (r: int)
    requires unit > 0
    ensures unit <= diff ==> r >= 1
    ensures diff <= 60 * unit ==> r <= 60
    ensures diff < 24 * unit ==> r <= 24
  {
    var q := diff as real / unit as real;
    assert unit <= diff ==> q >= 1.0 by {
      if unit <= diff { DivAtLeast(diff as real, unit as real, 1.0); }
    }
    assert diff <= 60 * unit ==> q <= 60.0 by {
      if diff <= 60 * unit { DivAtMost(diff as real, unit as real, 60.0); }
    }
    assert diff < 24 * unit ==> q < 24.0 by {
      if diff < 24 * unit { DivBelow(diff as real, unit as real, 24.0); }
    }
    JsRound(q)
  }

  lemma DivAtLeast(a: real, b: real, k: real)
    requires b > 0.0 && a >= k * b
    ensures a / b >= k
  {
    assert (a / b) * b == a;
  }

  lemma DivAtMost(a: real, b: real, k: real)
    requires b > 0.0 && a <= k * b
    ensures a / b <= k
  {
    assert (a / b) * b == a;
  }

  lemma DivBelow(a: real, b: real, k: real)
    requires b > 0.0 && a < k * b
    ensures a / b < k
  {
    assert (a / b) * b == a;
  }

  /** The text shown. */
  function RelativeText(r: Relative): string {
    match r
    case NoTime => "—"
    case JustNow => "Just now"
    case MinutesAgo(n) => IntText(n) + "m ago"
    case HoursAgo(n) => IntText(n) + "h ago"
    case DaysAgo(n) => IntText(n) + "d ago"
  }

  function IntText(n: int): string {
    if n >= 0 then NatToString(n) else "-" + NatToString(-n)
  }

  /** Ninety seconds ago shows as two minutes: a half rounds up. */
  lemma RelativeTimeExample(parse: string -> Option<int>, ts: string, now: int)
    requires ts != "" && parse(ts) == Some(now - 90 * 1000)
    ensures RelativeTime(Some(ts), parse, now) == MinutesAgo(2)
  {
  }

  /** The status shown beside a task. */
  function StatusLabel(isActive: Option<bool>): (r: string)
    ensures r == "Active" <==> isActive == Some(true)
    ensures r == "Active" || r == "Completed"
  {
    if isActive == Some(true) then "Active" else "Completed"
  }

  // ---------------------------------------------------------------------
  // New-task form
  // ---------------------------------------------------------------------

  /** The new-task form and the tasks it asked the parent to create. */
  class NewTaskForm {
    var showForm: bool
    var name: string
    var category: string
    /** The `(name, category)` pairs handed to `onNewTask`, oldest first. */
    var created: seq<(string, string)>

    constructor ()
      ensures !showForm && name == "" && category == "General" && created == []
    {
      showForm := false;
      name := "";
      category := "General";
      created := [];
    }

    /** `handleNewTaskClick`: a closed form only opens; an open form with a
        non-blank name creates the task (trimmed name) and resets; an open
        form with a blank name does nothing. */
    method HandleNewTaskClick()
      modifies this
      ensures !old(showForm) ==> showForm && name == old(name) && category == old(category) && created == old(created)
      ensures old(showForm) && !IsBlank(old(name)) ==>
        created == old(created) + [(Trim(old(name)), old(category))] && name == "" && category == "General" && !showForm
      ensures old(showForm) && IsBlank(old(name)) ==>
        showForm && name == old(name) && category == old(category) && created == old(created)
    {
      if showForm {
        if Trim(name) != [] {
          created := created + [(Trim(name), category)];
          name := "";
          category := "General";
          showForm := false;
        }
      } else {
        showForm := true;
      }
    }

    /** The cancel button: the form closes and the name is cleared (the
        category is kept). */
    method Cancel()
      modifies this`showForm, this`name
      ensures !showForm && name == ""
    {
      showForm := false;
      name := "";
    }
  }
}
