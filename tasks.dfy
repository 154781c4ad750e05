/** The backend's task transcript (the `Task` class of app.py and the
    helpers the chat routes use on it): message normalisation, appending a
    message and the user-turn counter, duration and completion, the
    summary's last activity, message lookup by id, the context window sent
    to the language model, cursor pagination and the rollback after a
    failed generation. Clocks and generated ids are parameters. */
module Tasks {
  import opened Common

  // ---------------------------------------------------------------------
  // Messages
  // ---------------------------------------------------------------------

  /** The `metadata` entry of a stored message: absent, a dictionary, or
      some other JSON value, which is either truthy or falsy. */
  datatype Metadata = NoMetadata | DictMetadata(entries: map<string, string>) | OtherMetadata(truthy: bool)

  /** A stored message dictionary. */
  datatype Message = Message(id: string, role: string, content: string, timestamp: string, metadata: Metadata)

  /** An entry of a stored message list before normalisation: a dictionary
      (whose `id` may be missing) or any other JSON value. */
  datatype RawEntry =
    | RawMessage(id: Option<string>, role: string, content: string, timestamp: string, metadata: Metadata)
    | NotADict

  /** The prefix of every generated message id, `msg-<hex>`. */
  const IdPrefix := "msg-"

  /** A freshly generated id from the hex digits `hex`. */
  function MintedId(hex: string): (r: string)
    ensures |r| == |IdPrefix| + |hex| && r[..|IdPrefix|] == IdPrefix
  {
    IdPrefix + hex
  }

  /** A non-dictionary metadata value that is truthy is removed; anything
      else is kept. */
  function CleanMetadata(m: Metadata): (r: Metadata)
    ensures !(r.OtherMetadata? && r.truthy)
    ensures r == m || r == NoMetadata
  {
    if m.OtherMetadata? && m.truthy then NoMetadata else m
  }

  /** One dictionary entry cleaned: metadata fixed and a missing or empty
      id replaced by a generated one. */
  function Clean(e: RawEntry, hex: string): (r: Message)
    requires e.RawMessage?
    ensures r.id != []
    ensures e.id.Some? && e.id.value != [] ==> r.id == e.id.value
    ensures r.role == e.role && r.content == e.content && r.timestamp == e.timestamp
  {
    var id := if e.id.Some? && e.id.value != [] then e.id.value else MintedId(hex);
    Message(id, e.role, e.content, e.timestamp, CleanMetadata(e.metadata))
  }

  /** The normalised list: non-dictionaries dropped, the others cleaned, in
      order. Entry `i` gets the generated hex `hexes[i]` if it needs an id. */
  function Normalized(entries: seq<RawEntry>, hexes: seq<string>): (r: seq<Message>)
    requires |hexes| == |entries|
    ensures |r| <= |entries|
  {
    if entries == [] then []
    else
      var n := |entries| - 1;
      var prefix := Normalized(entries[..n], hexes[..n]);
      if entries[n].NotADict? then prefix else prefix + [Clean(entries[n], hexes[n])]
  }

  /** One step of `Normalized`: the last entry is dropped or cleaned onto
      the rest. */
  lemma NormalizedStep(entries: seq<RawEntry>, hexes: seq<string>)
    requires |hexes| == |entries| && entries != []
    ensures var n := |entries| - 1;
      var prefix := Normalized(entries[..n], hexes[..n]);
      Normalized(entries, hexes) == if entries[n].NotADict? then prefix else prefix + [Clean(entries[n], hexes[n])]
  {
  }

  /** The number of dictionary entries. */
  function DictCount(entries: seq<RawEntry>): nat {
    if entries == [] then 0
    else DictCount(entries[..|entries| - 1]) + (if entries[|entries| - 1].RawMessage? then 1 else 0)
  }

  /** `_normalize_messages`: the loop that copies the surviving entries. */
  method NormalizeMessages(entries: seq<RawEntry>, hexes: seq<string>) returns (normalized: seq<Message>)
    requires |hexes| == |entries|
    ensures normalized == Normalized(entries, hexes)
  {
    normalized := [];
    for i := 0 to |entries|
      invariant normalized == Normalized(entries[..i], hexes[..i])
    {
      assert entries[..i + 1][..i] == entries[..i];
      assert hexes[..i + 1][..i] == hexes[..i];
      var entry := entries[i];
      if entry.NotADict? {
        continue;
      }
      var cleaned := Clean(entry, hexes[i]);
      normalized := normalized + [cleaned];
    }
    assert entries[..|entries|] == entries && hexes[..|hexes|] == hexes;
  }

  /** Every dictionary survives and nothing else does; every survivor has an
      id and no truthy non-dictionary metadata. */
  lemma {:induction false} NormalizedCorrect(entries: seq<RawEntry>, hexes: seq<string>)
    requires |hexes| == |entries|
    ensures var r := Normalized(entries, hexes);
      && |r| == DictCount(entries)
      && (forall i :: 0 <= i < |r| ==> r[i].id != [] && !(r[i].metadata.OtherMetadata? && r[i].metadata.truthy))
  {
    if entries != [] {
      var n := |entries| - 1;
      NormalizedCorrect(entries[..n], hexes[..n]);
    }
  }

  /** Order is preserved: the survivors of `a + b` are those of `a` followed
      by those of `b`. */
  lemma {:induction false} NormalizedAppend(a: seq<RawEntry>, ha: seq<string>, b: seq<RawEntry>, hb: seq<string>)
    requires |ha| == |a| && |hb| == |b|
    ensures Normalized(a + b, ha + hb) == Normalized(a, ha) + Normalized(b, hb)
    decreases |b|
  {
    if b != [] {
      var n := |b| - 1;
      assert (a + b)[..|a| + n] == a + b[..n] && (a + b)[|a| + n] == b[n];
      assert (ha + hb)[..|a| + n] == ha + hb[..n] && (ha + hb)[|a| + n] == hb[n];
      NormalizedStep(a + b, ha + hb);
      NormalizedStep(b, hb);
      NormalizedAppend(a, ha, b[..n], hb[..n]);
    } else {
      assert a + b == a && ha + hb == ha;
    }
  }

  /** A stored message read back as a raw entry. */
  function AsRaw(m: Message): RawEntry {
    RawMessage(Some(m.id), m.role, m.content, m.timestamp, m.metadata)
  }

  /** Normalising a normalised list changes nothing (no new ids are
      needed). */
  lemma {:induction false} NormalizedIdempotent(ms: seq<Message>, hexes: seq<string>)
    requires |hexes| == |ms|
    requires forall i :: 0 <= i < |ms| ==> ms[i].id != [] && !(ms[i].metadata.OtherMetadata? && ms[i].metadata.truthy)
    ensures Normalized(seq(|ms|, i requires 0 <= i < |ms| => AsRaw(ms[i])), hexes) == ms
  {
    var raw := seq(|ms|, i requires 0 <= i < |ms| => AsRaw(ms[i]));
    if ms != [] {
      var n := |ms| - 1;
      assert raw[..n] == seq(|ms[..n]|, i requires 0 <= i < |ms[..n]| => AsRaw(ms[..n][i]));
      NormalizedIdempotent(ms[..n], hexes[..n]);
      assert ms == ms[..n] + [ms[n]];
    }
  }

  // ---------------------------------------------------------------------
  // Duration
  // ---------------------------------------------------------------------

  /** Python's `int` on a float: truncation toward zero. */
  function Trunc(x: real): (r: int)
    ensures x >= 0.0 ==> r as real <= x < r as real + 1.0
    ensures x < 0.0 ==> r <= 0
  {
    if x >= 0.0 then x.Floor else -((-x).Floor)
  }

  /** `get_duration`, with the current time as the parameter `now`
      (seconds). */
  function Duration(startTs: Option<real>, endTs: Option<real>, isActive: bool, now: real): (r: nat)
    ensures startTs.None? ==> r == 0
    ensures startTs.Some? && endTs.Some? && endTs.value >= startTs.value ==>
      r as real <= endTs.value - startTs.value < r as real + 1.0
    ensures startTs.Some? && endTs.Some? && endTs.value < startTs.value ==> r == 0
    ensures startTs.Some? && endTs.None? && !isActive ==> r == 0
    ensures startTs.Some? && endTs.None? && isActive && now >= startTs.value ==>
      r as real <= now - startTs.value < r as real + 1.0
  {
    if startTs.None? then 0
    else if endTs.Some? then Max0(Trunc(endTs.value - startTs.value))
    else if !isActive then 0
    else Max0(Trunc(now - startTs.value))
  }

  function Max0(x: int): (r: nat)
    ensures r >= x && (x >= 0 ==> r == x)
  {
    if x > 0 then x else 0
  }

  // ---------------------------------------------------------------------
  // The transcript as a value
  // ---------------------------------------------------------------------

  /** The part of a task the chat routes change: its messages and its
      user-turn counter. */
  datatype Transcript = Transcript(messages: seq<Message>, iterations: int)

  /** Appending a message; a user message counts as one more iteration. */
  function Append(t: Transcript, m: Message): (r: Transcript)
    ensures |r.messages| == |t.messages| + 1
    ensures r.messages[..|t.messages|] == t.messages && r.messages[|t.messages|] == m
    ensures r.iterations == t.iterations + (if m.role == "user" then 1 else 0)
  {
    Transcript(t.messages + [m], t.iterations + (if m.role == "user" then 1 else 0))
  }

  /** The last message has role `role`. */
  predicate EndsWith(msgs: seq<Message>, role: string) {
    msgs != [] && msgs[|msgs| - 1].role == role
  }

  /** Undoing a trailing user message: the message is popped and the counter
      lowered, never below zero. */
  function PopUser(t: Transcript): (r: Transcript)
    ensures EndsWith(t.messages, "user") ==>
      r.messages == t.messages[..|t.messages| - 1] && r.iterations == Max0(t.iterations - 1)
    ensures !EndsWith(t.messages, "user") ==> r == t
  {
    if EndsWith(t.messages, "user") then
      Transcript(t.messages[..|t.messages| - 1], Max0(t.iterations - 1))
    else t
  }

  /** The rollback of a failed send: a trailing user message is undone. */
  function RollbackSend(t: Transcript): (r: Transcript)
    ensures |r.messages| <= |t.messages| && r.messages == t.messages[..|r.messages|]
    ensures r.iterations >= 0 || r == t
  {
    PopUser(t)
  }

  /** The rollback of a failed improvement: a trailing assistant message is
      popped (the counter kept), then a trailing user message is undone. */
  function RollbackImprove(t: Transcript): (r: Transcript)
    ensures |t.messages| - 2 <= |r.messages| <= |t.messages| && r.messages == t.messages[..|r.messages|]
    ensures r.iterations < t.iterations ==> |r.messages| < |t.messages|
  {
    var u := if EndsWith(t.messages, "assistant") then Transcript(t.messages[..|t.messages| - 1], t.iterations) else t;
    PopUser(u)
  }

  /** A failed send is undone exactly: appending the user message and
      rolling back restores the transcript (the counter is never
      negative). */
  lemma SendRollbackRestores(t: Transcript, m: Message)
    requires m.role == "user" && t.iterations >= 0
    ensures RollbackSend(Append(t, m)) == t
  {
    assert (t.messages + [m])[..|t.messages|] == t.messages;
  }

  /** If the reply was appended before the failure (the store failed), the
      send's rollback finds an assistant message last and keeps both. */
  lemma SendRollbackAfterReplyKeepsBoth(t: Transcript, m: Message, reply: Message)
    requires reply.role == "assistant"
    ensures RollbackSend(Append(Append(t, m), reply)) == Append(Append(t, m), reply)
    ensures |RollbackSend(Append(Append(t, m), reply)).messages| == |t.messages| + 2
  {
  }

  /** A failed improvement is undone exactly: the user instruction appended
      before the generation is removed and the counter restored. */
  lemma ImproveRollbackRestores(t: Transcript, m: Message)
    requires m.role == "user" && t.iterations >= 0
    ensures RollbackImprove(Append(t, m)) == t
  {
    assert (t.messages + [m])[..|t.messages|] == t.messages;
  }

  /** If the reply was appended too before the failure, the improvement's
      rollback removes both messages. */
  lemma ImproveRollbackRemovesReply(t: Transcript, m: Message, reply: Message)
    requires m.role == "user" && reply.role == "assistant" && t.iterations >= 0
    ensures RollbackImprove(Append(Append(t, m), reply)) == t
  {
    var t1 := Append(t, m);
    assert (t1.messages + [reply])[..|t1.messages|] == t1.messages;
    assert (t.messages + [m])[..|t.messages|] == t.messages;
  }

  // ---------------------------------------------------------------------
  // The task object
  // ---------------------------------------------------------------------

  /** What `to_summary` reports (the fields the model keeps). */
  datatype TaskSummary = TaskSummary(
    id: string, name: string, category: string, iterations: int, duration: nat,
    lastActivity: string, isActive: bool, completedAt: Option<string>)

  /** `last_activity`: the last message's timestamp, else `updated_at`. */
  function LastActivity(messages: seq<Message>, updatedAt: string): (r: string)
    ensures messages != [] ==> r == messages[|messages| - 1].timestamp
    ensures messages == [] ==> r == updatedAt
  {
    if messages == [] then updatedAt else messages[|messages| - 1].timestamp
  }

  /** A chat task. */
  class Task {
    var id: string
    var name: string
    var category: string
    var messages: seq<Message>
    var iterations: int
    var isActive: bool
    var startTs: Option<real>
    var endTs: Option<real>
    var completedAt: Option<string>
    var updatedAt: string

    /** The messages and the counter as a value. */
    function State(): Transcript
      reads this
    {
      Transcript(messages, iterations)
    }

    /** A new task (`/api/new-task`): no messages, no iterations, active,
        started now. */
    constructor (id: string, name: string, category: string, nowIso: string, now: real)
      ensures this.id == id && this.name == name && this.category == category
      ensures messages == [] && iterations == 0 && isActive
      ensures startTs == Some(now) && endTs == None && completedAt == None && updatedAt == nowIso
    {
      this.id := id;
      this.name := name;
      this.category := category;
      messages := [];
      iterations := 0;
      isActive := true;
      startTs := Some(now);
      endTs := None;
      completedAt := None;
      updatedAt := nowIso;
    }

    /** `add_message`: a `message_id` in the metadata becomes the id (else
        `msg-<hex>`), the rest of the metadata is kept when non-empty, the
        message is appended and `updated_at` moves to its timestamp. */
    method AddMessage(role: string, content: string, metadata: map<string, string>, hex: string, nowIso: string)
      modifies this
      ensures var m := NewMessage(role, content, metadata, hex, nowIso);
        State() == Append(old(State()), m) && updatedAt == nowIso
      ensures id == old(id) && name == old(name) && category == old(category) && isActive == old(isActive)
      ensures startTs == old(startTs) && endTs == old(endTs) && completedAt == old(completedAt)
    {
      var entry := NewMessage(role, content, metadata, hex, nowIso);
      messages := messages + [entry];
      if role == "user" {
        iterations := iterations + 1;
      }
      updatedAt := entry.timestamp;
    }

    /** `get_duration` at time `now`. */
    method GetDuration(now: real) returns (d: nat)
      ensures d == Duration(startTs, endTs, isActive, now)
    {
      if startTs.None? {
        return 0;
      }
      if endTs.Some? {
        return Max0(Trunc(endTs.value - startTs.value));
      }
      if !isActive {
        return 0;
      }
      return Max0(Trunc(now - startTs.value));
    }

    /** `mark_completed` at time `now`. */
    method MarkCompleted(nowIso: string, now: real)
      modifies this
      ensures !isActive && endTs == Some(now) && completedAt == Some(nowIso) && updatedAt == nowIso
      ensures State() == old(State()) && startTs == old(startTs)
      ensures id == old(id) && name == old(name) && category == old(category)
      ensures forall later :: Duration(startTs, endTs, isActive, later) == Duration(startTs, endTs, isActive, now)
    {
      isActive := false;
      completedAt := Some(nowIso);
      endTs := Some(now);
      updatedAt := nowIso;
    }

    /** `to_summary` at time `now`. */
    method ToSummary(now: real) returns (s: TaskSummary)
      ensures s.id == id && s.name == name && s.category == category && s.iterations == iterations
      ensures s.duration == Duration(startTs, endTs, isActive, now)
      ensures s.lastActivity == LastActivity(messages, updatedAt)
      ensures s.isActive == isActive && s.completedAt == completedAt
    {
      var d := GetDuration(now);
      var last := if messages != [] then messages[|messages| - 1].timestamp else updatedAt;
      s := TaskSummary(id, name, category, iterations, d, last, isActive, completedAt);
    }

    /** The rollback in `send_message` after the reply could not be
        generated. */
    method RollbackFailedSend()
      modifies this`messages, this`iterations
      ensures State() == RollbackSend(old(State()))
    {
      if messages != [] && messages[|messages| - 1].role == "user" {
        messages := messages[..|messages| - 1];
        iterations := Max0(iterations - 1);
      }
    }

    /** The rollback in `improve_message` after the improved reply could not
        be generated. */
    method RollbackFailedImprove()
      modifies this`messages, this`iterations
      ensures State() == RollbackImprove(old(State()))
    {
      if messages != [] && messages[|messages| - 1].role == "assistant" {
        messages := messages[..|messages| - 1];
      }
      if messages != [] && messages[|messages| - 1].role == "user" {
        messages := messages[..|messages| - 1];
        iterations := Max0(iterations - 1);
      }
    }
  }

  /** The message `add_message` builds. */
  function NewMessage(role: string, content: string, metadata: map<string, string>, hex: string, nowIso: string): (m: Message)
    ensures m.id != [] && m.role == role && m.content == content && m.timestamp == nowIso
    ensures "message_id" in metadata && metadata["message_id"] != "" ==> m.id == metadata["message_id"]
    ensures m.metadata.DictMetadata? ==> "message_id" !in m.metadata.entries && m.metadata.entries != map[]
  {
    var given := if "message_id" in metadata then metadata["message_id"] else "";
    var rest := metadata - {"message_id"};
    Message(
      if given != "" then given else MintedId(hex),
      role, content, nowIso,
      if |rest| > 0 then DictMetadata(rest) else NoMetadata)
  }

  // ---------------------------------------------------------------------
  // Lookup by id
  // ---------------------------------------------------------------------

  /** The first index at or after `from` whose message has id `id`, or -1. */
  function IndexFrom(msgs: seq<Message>, id: string, from: nat): (r: int)
    requires from <= |msgs|
    ensures r == -1 || from <= r < |msgs|
    ensures r >= 0 ==> msgs[r].id == id && forall j :: from <= j < r ==> msgs[j].id != id
    ensures r == -1 <==> forall j :: from <= j < |msgs| ==> msgs[j].id != id
    decreases |msgs| - from
  {
    if from == |msgs| then -1
    else if msgs[from].id == id then from
    else IndexFrom(msgs, id, from + 1)
  }

  /** `_find_message_index`: the least index with the id, or -1 when the id
      is empty or no message has it. */
  function FindMessageIndex(msgs: seq<Message>, id: string): (r: int)
    ensures -1 <= r < |msgs|
    ensures r >= 0 ==> id != [] && msgs[r].id == id && forall j :: 0 <= j < r ==> msgs[j].id != id
    ensures r == -1 <==> id == [] || forall j :: 0 <= j < |msgs| ==> msgs[j].id != id
  {
    if id == [] then -1 else IndexFrom(msgs, id, 0)
  }

  // ---------------------------------------------------------------------
  // Context window
  // ---------------------------------------------------------------------

  const MaxHistoryMessages := 20

  const SystemInstruction :=
    "You are an AI Agent developed to help you complete tasks and help you analyze how your AI Skills. "
    + "Provide concise, actionable guidance. Use Markdown formatting with short paragraphs and bullet points. "
    + "Keep responses brief but informative."

  /** One entry of the model's context: a role and one text part. */
  datatype ContextEntry = ContextEntry(role: string, text: string)

  /** Python's `xs[-20:]`. */
  function History(msgs: seq<Message>): (r: seq<Message>)
    ensures |r| == if |msgs| < MaxHistoryMessages then |msgs| else MaxHistoryMessages
    ensures r == msgs[|msgs| - |r|..]
  {
    if |msgs| <= MaxHistoryMessages then msgs else msgs[|msgs| - MaxHistoryMessages..]
  }

  /** The role the model sees. */
  function MappedRole(role: string): (r: string)
    ensures r == "model" <==> role == "assistant"
    ensures r == "model" || r == "user"
  {
    if role == "assistant" then "model" else "user"
  }

  /** The compiled entries of `history`, skipping empty contents. */
  function Compile(history: seq<Message>): (r: seq<ContextEntry>)
    ensures |r| <= |history|
    ensures forall i :: 0 <= i < |r| ==> r[i].text != [] && (r[i].role == "model" || r[i].role == "user")
  {
    if history == [] then []
    else
      var n := |history| - 1;
      var m := history[n];
      Compile(history[..n]) + (if m.content == [] then [] else [ContextEntry(MappedRole(m.role), m.content)])
  }

  /** `_build_context_messages`: the system instruction as a user entry,
      then the last twenty messages with content. */
  function ContextMessages(msgs: seq<Message>): (r: seq<ContextEntry>)
    ensures 1 <= |r| <= MaxHistoryMessages + 1
    ensures r[0] == ContextEntry("user", SystemInstruction)
    ensures r[1..] == Compile(History(msgs))
  {
    [ContextEntry("user", SystemInstruction)] + Compile(History(msgs))
  }

  /** Every message in the window with content appears, with its mapped
      role, and the entries keep the messages' order: the compiled entries
      are exactly the non-empty messages of the window. */
  function NonEmpty(history: seq<Message>): (r: seq<Message>)
    ensures |r| <= |history|
  {
    if history == [] then []
    else
      var n := |history| - 1;
      NonEmpty(history[..n]) + (if history[n].content == [] then [] else [history[n]])
  }

  lemma {:induction false} CompileIsMappedNonEmpty(history: seq<Message>)
    ensures var kept := NonEmpty(history);
      var r := Compile(history);
      && |r| == |kept|
      && forall i :: 0 <= i < |r| ==> r[i] == ContextEntry(MappedRole(kept[i].role), kept[i].content)
  {
    if history != [] {
      CompileIsMappedNonEmpty(history[..|history| - 1]);
    }
  }

  /** With twenty messages or fewer the whole transcript is the window. */
  lemma ShortTranscriptWhole(msgs: seq<Message>)
    requires |msgs| <= MaxHistoryMessages
    ensures ContextMessages(msgs) == [ContextEntry("user", SystemInstruction)] + Compile(msgs)
  {
  }

  // ---------------------------------------------------------------------
  // Pagination
  // ---------------------------------------------------------------------

  /** `max(1, min(100, limit))`. */
  function ClampLimit(n: int): (r: int)
    ensures 1 <= r <= 100
    ensures 1 <= n <= 100 ==> r == n
    ensures n < 1 ==> r == 1
    ensures n > 100 ==> r == 100
  {
    if n < 1 then 1 else if n > 100 then 100 else n
  }

  /** The outcome of `/api/task-messages`: the two request errors this
      arithmetic can raise, or a page. */
  datatype PageResult =
    | LimitNotAnInteger
    | CursorNotFound
    | Page(messages: seq<Message>, nextCursor: Option<string>, hasMore: bool)

  /** Where the page ends: at the cursor message, or at the end without a
      cursor (an empty cursor counts as none); -1 for an unknown cursor. */
  function PageEnd(msgs: seq<Message>, cursor: Option<string>): (r: int)
    ensures -1 <= r <= |msgs|
  {
    if cursor.Some? && cursor.value != [] then FindMessageIndex(msgs, cursor.value) else |msgs|
  }

  /** The page ending before the cursor message (or at the end without a
      cursor). `limit` is `None` when the limit text is not an integer. */
  function Paginate(msgs: seq<Message>, cursor: Option<string>, limit: Option<int>): (r: PageResult)
    ensures limit.None? <==> r.LimitNotAnInteger?
    ensures r.CursorNotFound? <==>
      limit.Some? && cursor.Some? && cursor.value != [] && FindMessageIndex(msgs, cursor.value) < 0
    ensures r.Page? ==>
      var end := PageEnd(msgs, cursor);
      var start := if end - ClampLimit(limit.value) > 0 then end - ClampLimit(limit.value) else 0;
      && 0 <= start <= end <= |msgs|
      && r.messages == msgs[start..end]
      && 1 <= |r.messages| + (if r.hasMore then 0 else 1)
      && |r.messages| <= ClampLimit(limit.value)
      && (r.hasMore <==> start > 0)
      && (r.nextCursor.Some? <==> r.hasMore)
      && (r.hasMore ==> r.nextCursor == Some(msgs[start].id))
  {
    if limit.None? then LimitNotAnInteger
    else
      var size := ClampLimit(limit.value);
      var end := PageEnd(msgs, cursor);
      if end < 0 then CursorNotFound
      else
        var start := if end - size > 0 then end - size else 0;
        var page := msgs[start..end];
        var hasMore := start > 0;
        Page(page, if hasMore && page != [] then Some(page[0].id) else None, hasMore)
  }

  /** Ids are pairwise different. */
  predicate UniqueIds(msgs: seq<Message>) {
    forall i, j :: 0 <= i < j < |msgs| ==> msgs[i].id != msgs[j].id
  }

  /** Following `next_cursor` gives the page just before: with unique,
      non-empty ids (as normalisation and `add_message` produce), a page with more before it hands over a cursor whose page ends exactly
      where this one starts. */
  lemma PagesChain(msgs: seq<Message>, cursor: Option<string>, limit: int)
    requires UniqueIds(msgs)
    requires forall i :: 0 <= i < |msgs| ==> msgs[i].id != []
    requires Paginate(msgs, cursor, Some(limit)).Page?
    requires Paginate(msgs, cursor, Some(limit)).hasMore
    ensures var p := Paginate(msgs, cursor, Some(limit));
      var q := Paginate(msgs, p.nextCursor, Some(limit));
      var end := PageEnd(msgs, cursor);
      && q.Page?
      && |q.messages| + |p.messages| <= end
      && q.messages + p.messages == msgs[end - |p.messages| - |q.messages|..end]
  {
    var p := Paginate(msgs, cursor, Some(limit));
    var end := PageEnd(msgs, cursor);
    var size := ClampLimit(limit);
    var start := end - size;
    assert p.nextCursor == Some(msgs[start].id);
    var k := FindMessageIndex(msgs, msgs[start].id);
    assert k != -1 by {
      assert msgs[start].id != [];
    }
    assert k == start by {
      assert msgs[k].id == msgs[start].id;
      assert !(k < start);
    }
    assert PageEnd(msgs, p.nextCursor) == start;
    var start2 := if start - size > 0 then start - size else 0;
    assert 0 <= start2 <= start <= end <= |msgs|;
    SlicesJoin(msgs, start2, start, end);
  }

  lemma SlicesJoin<T>(s: seq<T>, a: nat, b: nat, c: nat)
    requires a <= b <= c <= |s|
    ensures s[a..b] + s[b..c] == s[a..c]
  {
  }
}
