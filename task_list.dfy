/** The client's task list (App.tsx): reading task payloads from the
    backend into summaries and active tasks, ordering the list by last
    activity, inserting or replacing a summary, the optimistic message send
    and its revert, and the greeting name. Date parsing is the parameter
    `parse` (milliseconds, `None` for an invalid date); clocks and locally
    generated ids are parameters. */
module TaskList {
  import opened Common
  import opened Sorting

  // ---------------------------------------------------------------------
  // Payloads
  // ---------------------------------------------------------------------

  /** A JSON field that is present and not null: a string or some other
      value. */
  datatype JsonValue = JText(s: string) | JOther

  /** One message of a payload's `messages` array (`None`: null or
      missing). */
  datatype PayloadMessage = PayloadMessage(id: Option<string>, role: Option<string>, content: Option<string>,
                                           timestamp: Option<string>)

  /** The fields of a task payload the client reads. `messages` is `None`
      when the payload has no array there. */
  datatype Payload = Payload(
    id: Option<string>, taskId: Option<string>, name: Option<string>, category: Option<string>,
    iterations: Option<int>, duration: Option<int>,
    lastActivity: Option<JsonValue>, updatedAt: Option<JsonValue>,
    completedAt: Option<JsonValue>, startedAt: Option<JsonValue>,
    isActive: Option<bool>, messages: Option<seq<PayloadMessage>>)

  /** The first present value of `xs`: JavaScript's `a ?? b ?? …`. */
  function FirstPresent<T>(xs: seq<Option<T>>): (r: Option<T>)
    ensures r.None? <==> forall i :: 0 <= i < |xs| ==> xs[i].None?
    ensures forall i :: 0 <= i < |xs| && xs[i].Some? && (forall j :: 0 <= j < i ==> xs[j].None?) ==> r == xs[i]
  {
    if xs == [] then None
    else if xs[0].Some? then xs[0]
    else
      var r := FirstPresent(xs[1..]);
      assert forall j :: 1 <= j < |xs| ==> xs[j] == xs[1..][j - 1];
      r
  }

  /** The timestamp of the payload's last message, when it has messages. */
  function LastMessageTimestamp(p: Payload): Option<JsonValue> {
    if p.messages.Some? && |p.messages.value| > 0 then
      var ts := p.messages.value[|p.messages.value| - 1].timestamp;
      if ts.Some? then Some(JText(ts.value)) else None
    else None
  }

  /** `lastActivityFromPayload`: the first present of `last_activity`,
      `updated_at`, `completed_at`, `started_at` and the last message's
      timestamp, else nothing. */
  function LastActivityFromPayload(p: Payload): (r: Option<JsonValue>)
    ensures p.lastActivity.Some? ==> r == p.lastActivity
    ensures p.lastActivity.None? && p.updatedAt.Some? ==> r == p.updatedAt
    ensures p.lastActivity.None? && p.updatedAt.None? && p.completedAt.Some? ==> r == p.completedAt
    ensures p.lastActivity.None? && p.updatedAt.None? && p.completedAt.None? && p.startedAt.Some? ==> r == p.startedAt
    ensures p.lastActivity.None? && p.updatedAt.None? && p.completedAt.None? && p.startedAt.None? ==>
      r == LastMessageTimestamp(p)
  {
    var xs := [p.lastActivity, p.updatedAt, p.completedAt, p.startedAt, LastMessageTimestamp(p)];
    assert xs[0] == p.lastActivity && xs[1] == p.updatedAt && xs[2] == p.completedAt;
    assert xs[3] == p.startedAt && xs[4] == LastMessageTimestamp(p);
    FirstPresent(xs)
  }

  /** A summary of a task as the list keeps it. */
  datatype TaskSummary = TaskSummary(
    id: string, taskId: string, name: string, category: string, iterations: int, duration: int,
    lastActivity: Option<string>, isActive: Option<bool>, startedAt: Option<string>, completedAt: Option<string>)

  /** `typeof v === 'string' ? v : null`. */
  function TextOrNull(v: Option<JsonValue>): (r: Option<string>)
    ensures r.Some? <==> v.Some? && v.value.JText?
    ensures r.Some? ==> v == Some(JText(r.value))
  {
    if v.Some? && v.value.JText? then Some(v.value.s) else None
  }

  /** `normalizeTaskSummary`; `fallbackId` stands for `task-<Date.now()>`. */
  function NormalizeTaskSummary(p: Payload, fallbackId: string): (r: TaskSummary)
    ensures r.id == FirstPresent([p.id, p.taskId]).GetOr(fallbackId)
    ensures r.taskId == p.taskId.GetOr(r.id)
    ensures p.name.Some? ==> r.name == p.name.value
    ensures p.name.None? ==> r.name == "Untitled Task"
    ensures p.category.Some? ==> r.category == p.category.value
    ensures p.category.None? ==> r.category == "General"
    ensures p.iterations.Some? ==> r.iterations == p.iterations.value
    ensures p.iterations.None? ==> r.iterations == 0
    ensures p.duration.Some? ==> r.duration == p.duration.value
    ensures p.duration.None? ==> r.duration == 0
    ensures r.lastActivity == TextOrNull(LastActivityFromPayload(p))
    ensures r.isActive == p.isActive
    ensures r.startedAt == TextOrNull(p.startedAt) && r.completedAt == TextOrNull(p.completedAt)
  {
    var id := FirstPresent([p.id, p.taskId]).GetOr(fallbackId);
    TaskSummary(
      id, p.taskId.GetOr(id), p.name.GetOr("Untitled Task"), p.category.GetOr("General"),
      p.iterations.GetOr(0), p.duration.GetOr(0),
      TextOrNull(LastActivityFromPayload(p)), p.isActive,
      TextOrNull(p.startedAt), TextOrNull(p.completedAt))
  }

  /** A message of the open task. */
  datatype ChatMessage = ChatMessage(id: string, role: string, content: string, timestamp: string)

  /** The open task: its summary and its messages. */
  datatype ActiveTask = ActiveTask(summary: TaskSummary, messages: seq<ChatMessage>)

  /** One payload message read into a chat message; `index` is its
      position and `nowIso` the current time. */
  function NormalizeMessage(m: PayloadMessage, taskId: string, index: nat, nowIso: string): (r: ChatMessage)
    ensures r.role == "assistant" <==> m.role == Some("assistant")
    ensures r.role == "assistant" || r.role == "user"
    ensures m.id.None? ==> r.id == "msg-" + taskId + "-" + NatToString(index)
    ensures m.id.Some? ==> r.id == m.id.value
    ensures m.content.Some? ==> r.content == m.content.value
    ensures m.content.None? ==> r.content == ""
    ensures m.timestamp.Some? ==> r.timestamp == m.timestamp.value
    ensures m.timestamp.None? ==> r.timestamp == nowIso
  {
    ChatMessage(
      m.id.GetOr("msg-" + taskId + "-" + NatToString(index)),
      if m.role == Some("assistant") then "assistant" else "user",
      m.content.GetOr(""),
      m.timestamp.GetOr(nowIso))
  }

  /** `normalizeActiveTask`: the summary and every message read in turn. */
  function NormalizeActiveTask(p: Payload, fallbackId: string, nowIso: string): (r: ActiveTask)
    ensures r.summary == NormalizeTaskSummary(p, fallbackId)
    ensures |r.messages| == if p.messages.Some? then |p.messages.value| else 0
    ensures forall i :: 0 <= i < |r.messages| ==> r.messages[i] == NormalizeMessage(p.messages.value[i], r.summary.id, i, nowIso)
  {
    var summary := NormalizeTaskSummary(p, fallbackId);
    var raw := if p.messages.Some? then p.messages.value else [];
    ActiveTask(summary, seq(|raw|, i requires 0 <= i < |raw| => NormalizeMessage(raw[i], summary.id, i, nowIso)))
  }

  /** Message ids are defaulted to different values: two messages without
      an id never share one. */
  lemma DefaultIdsDiffer(taskId: string, i: nat, j: nat)
    requires i != j
    ensures "msg-" + taskId + "-" + NatToString(i) != "msg-" + taskId + "-" + NatToString(j)
  {
    var prefix := "msg-" + taskId + "-";
    if prefix + NatToString(i) == prefix + NatToString(j) {
      assert NatToString(i) == (prefix + NatToString(i))[|prefix|..];
      assert NatToString(j) == (prefix + NatToString(j))[|prefix|..];
      NatToStringRoundTrip(i);
      NatToStringRoundTrip(j);
    }
  }

  // ---------------------------------------------------------------------
  // Ordering
  // ---------------------------------------------------------------------

  /** `toTimestamp`: 0 for a missing, empty or unparseable date. */
  function ToTimestamp(value: Option<string>, parse: string -> Option<int>): (r: int)
    ensures value.None? || value == Some("") ==> r == 0
    ensures value.Some? && value.value != "" && parse(value.value).None? ==> r == 0
    ensures value.Some? && value.value != "" && parse(value.value).Some? ==> r == parse(value.value).value
  {
    if value.None? || value.value == "" then 0
    else match parse(value.value)
      case None => 0
      case Some(t) => t
  }

  /** The sort key: the last activity as a number. */
  function ActivityKey(parse: string -> Option<int>): TaskSummary -> real {
    (s: TaskSummary) => ToTimestamp(s.lastActivity, parse) as real
  }

  /** `sortTaskSummaries`: a sorted copy, most recent activity first. */
  function SortTaskSummaries(items: seq<TaskSummary>, parse: string -> Option<int>): (r: seq<TaskSummary>)
    ensures multiset(r) == multiset(items) && |r| == |items|
  {
    SortDesc(items, ActivityKey(parse))
  }

  /** The sorted list is a rearrangement of the input with non-increasing
      activity time. */
  lemma SortTaskSummariesCorrect(items: seq<TaskSummary>, parse: string -> Option<int>)
    ensures var r := SortTaskSummaries(items, parse);
      && multiset(r) == multiset(items)
      && forall i, j :: 0 <= i < j < |r| ==> ToTimestamp(r[i].lastActivity, parse) >= ToTimestamp(r[j].lastActivity, parse)
  {
    var r := SortTaskSummaries(items, parse);
    SortDescCorrect(items, ActivityKey(parse));
    forall i, j | 0 <= i < j < |r| ensures ToTimestamp(r[i].lastActivity, parse) >= ToTimestamp(r[j].lastActivity, parse) {
      assert ActivityKey(parse)(r[i]) >= ActivityKey(parse)(r[j]);
    }
  }

  /** The entries whose id differs from `id`, each as often as it occurs,
      in order (`WithoutIdCounts`, `WithoutIdSnocKept`, `WithoutIdSnocDropped`). */
  function WithoutId(items: seq<TaskSummary>, id: string): (r: seq<TaskSummary>)
    ensures forall i :: 0 <= i < |r| ==> r[i].id != id
    ensures forall x :: x in r ==> x in items
  {
    if items == [] then []
    else
      var rest := WithoutId(items[..|items| - 1], id);
      var last := items[|items| - 1];
      if last.id == id then rest else rest + [last]
  }

  /** Every entry with another id is kept exactly as often as it occurs, and
      every entry with the id is dropped. */
  lemma {:induction false} WithoutIdCounts(items: seq<TaskSummary>, id: string)
    ensures forall x: TaskSummary :: x.id != id ==> multiset(WithoutId(items, id))[x] == multiset(items)[x]
    ensures forall x: TaskSummary :: x.id == id ==> multiset(WithoutId(items, id))[x] == 0
  {
    if items != [] {
      var prefix, last := items[..|items| - 1], items[|items| - 1];
      assert items == prefix + [last];
      WithoutIdCounts(prefix, id);
      if last.id == id {
        WithoutIdSnocDropped(prefix, last, id);
      } else {
        WithoutIdSnocKept(prefix, last, id);
      }
    }
  }

  /** One more entry with another id is kept, at the end. */
  lemma WithoutIdSnocKept(items: seq<TaskSummary>, x: TaskSummary, id: string)
    requires x.id != id
    ensures WithoutId(items + [x], id) == WithoutId(items, id) + [x]
  {
    assert (items + [x])[..|items|] == items;
  }

  /** One more entry with the id is dropped. */
  lemma WithoutIdSnocDropped(items: seq<TaskSummary>, x: TaskSummary, id: string)
    requires x.id == id
    ensures WithoutId(items + [x], id) == WithoutId(items, id)
  {
    assert (items + [x])[..|items|] == items;
  }

  /** The list after `upsertTaskSummary`'s updater. */
  function Upserted(prev: seq<TaskSummary>, summary: TaskSummary, parse: string -> Option<int>): (r: seq<TaskSummary>)
    ensures multiset(r) == multiset([summary] + WithoutId(prev, summary.id))
  {
    SortTaskSummaries([summary] + WithoutId(prev, summary.id), parse)
  }

  /** After an upsert exactly one entry carries the summary's id, and it is
      the new summary; every earlier entry with another id is kept; the list
      is ordered by most recent activity first. */
  lemma UpsertedCorrect(prev: seq<TaskSummary>, summary: TaskSummary, parse: string -> Option<int>)
    ensures var r := Upserted(prev, summary, parse);
      && (exists i :: 0 <= i < |r| && r[i] == summary)
      && (forall i, j :: 0 <= i < |r| && 0 <= j < |r| && r[i].id == summary.id && r[j].id == summary.id ==> i == j)
      && (forall i :: 0 <= i < |r| && r[i].id == summary.id ==> r[i] == summary)
      && (forall x :: x in prev && x.id != summary.id ==> x in r)
      && (forall i, j :: 0 <= i < j < |r| ==> ToTimestamp(r[i].lastActivity, parse) >= ToTimestamp(r[j].lastActivity, parse))
  {
    var r := Upserted(prev, summary, parse);
    var rest := WithoutId(prev, summary.id);
    var list := [summary] + rest;
    SortTaskSummariesCorrect(list, parse);
    assert list[0] == summary;
    assert summary in multiset(r);
    forall i | 0 <= i < |r| && r[i].id == summary.id ensures r[i] == summary {
      assert r[i] in multiset(list);
      assert r[i] !in rest;
    }
    assert multiset(list)[summary] == 1 by {
      assert summary !in rest;
      assert multiset(list) == multiset{summary} + multiset(rest);
    }
    forall i, j | 0 <= i < |r| && 0 <= j < |r| && r[i].id == summary.id && r[j].id == summary.id ensures i == j {
      if i < j {
        TwiceCountsTwice(r, i, j);
      } else if j < i {
        TwiceCountsTwice(r, j, i);
      }
    }
    forall x | x in prev && x.id != summary.id ensures x in r {
      WithoutIdCounts(prev, summary.id);
      assert x in rest;
      assert x in multiset(list);
    }
  }

  // ---------------------------------------------------------------------
  // The app's task state
  // ---------------------------------------------------------------------

  /** The task part of the app's state. */
  class AppModel {
    var signedIn: bool
    var currentTask: Option<ActiveTask>
    var previousTasks: seq<TaskSummary>

    constructor (signedIn: bool)
      ensures this.signedIn == signedIn && currentTask == None && previousTasks == []
    {
      this.signedIn := signedIn;
      currentTask := None;
      previousTasks := [];
    }

    /** `upsertTaskSummary`. */
    method UpsertTaskSummary(p: Payload, fallbackId: string, parse: string -> Option<int>)
      modifies this`previousTasks
      ensures previousTasks == Upserted(old(previousTasks), NormalizeTaskSummary(p, fallbackId), parse)
    {
      var summary := NormalizeTaskSummary(p, fallbackId);
      var filtered := WithoutId(previousTasks, summary.id);
      previousTasks := SortTaskSummaries([summary] + filtered, parse);
    }

    /** The optimistic half of `handleSendMessage`: without an open task, a
        signed-in user or a non-blank message nothing happens; otherwise the
        user's message is shown at once and the turn counted. `before` is
        the task to restore on failure. */
    method BeginSend(message: string, localId: string, nowIso: string) returns (before: Option<ActiveTask>)
      modifies this`currentTask
      ensures before == old(currentTask)
      ensures old(currentTask).None? || !signedIn || IsBlank(message) ==> currentTask == old(currentTask)
      ensures old(currentTask).Some? && signedIn && !IsBlank(message) ==>
        var t := old(currentTask).value;
        currentTask == Some(ActiveTask(t.summary.(iterations := t.summary.iterations + 1),
                                       t.messages + [ChatMessage(localId, "user", message, nowIso)]))
    {
      before := currentTask;
      if currentTask.None? || !signedIn || Trim(message) == [] {
        return;
      }
      var t := currentTask.value;
      var userMessage := ChatMessage(localId, "user", message, nowIso);
      currentTask := Some(ActiveTask(t.summary.(iterations := t.summary.iterations + 1), t.messages + [userMessage]));
    }

    /** The outcome of the request: the backend's task on success (the task
        and the list are replaced by it), or `None` on failure (the task is
        restored to `before`). */
    method FinishSend(before: Option<ActiveTask>, reply: Option<Payload>, fallbackId: string, nowIso: string,
                      parse: string -> Option<int>)
      modifies this`currentTask, this`previousTasks
      ensures reply.None? ==> currentTask == before && previousTasks == old(previousTasks)
      ensures reply.Some? ==> currentTask == Some(NormalizeActiveTask(reply.value, fallbackId, nowIso))
      ensures reply.Some? ==>
        previousTasks == Upserted(old(previousTasks), NormalizeTaskSummary(reply.value, fallbackId), parse)
    {
      if reply.None? {
        currentTask := before;
        return;
      }
      currentTask := Some(NormalizeActiveTask(reply.value, fallbackId, nowIso));
      UpsertTaskSummary(reply.value, fallbackId, parse);
    }
  }

  // ---------------------------------------------------------------------
  // Greeting
  // ---------------------------------------------------------------------

  /** The text before the first space (`name.split(' ')[0]`). */
  function FirstToken(s: string): (r: string)
    ensures |r| <= |s| && r == s[..|r|]
    ensures forall i :: 0 <= i < |r| ==> r[i] != ' '
    ensures |r| < |s| ==> s[|r|] == ' '
  {
    if s == [] || s[0] == ' ' then []
    else [s[0]] + FirstToken(s[1..])
  }

  /** `userDisplayName`: nothing without a name; else the first word, or
      the whole name when it starts with a space. */
  function UserDisplayName(name: Option<string>): (r: Option<string>)
    ensures r.None? <==> name.None? || name.value == []
    ensures r.Some? ==> r.value == FirstToken(name.value) || (FirstToken(name.value) == [] && r.value == name.value)
    ensures r.Some? ==> r.value != []
  {
    if name.None? || name.value == [] then None
    else
      var first := FirstToken(name.value);
      Some(if first != [] then first else name.value)
  }

  /** A text without spaces is its own first token. */
  lemma {:induction false} FirstTokenWhole(s: string)
    requires forall i :: 0 <= i < |s| ==> s[i] != ' '
    ensures FirstToken(s) == s
  {
    if s != [] {
      FirstTokenWhole(s[1..]);
      assert s == [s[0]] + s[1..];
    }
  }

  /** A name without spaces is shown whole. */
  lemma SingleWordShownWhole(name: string)
    requires name != [] && forall i :: 0 <= i < |name| ==> name[i] != ' '
    ensures UserDisplayName(Some(name)) == Some(name)
  {
    FirstTokenWhole(name);
  }
}
