/** The backend's user and result-store helpers of app.py: removing the
    password from a user record, looking a user up by e-mail, and the
    filtering and defaulting of stored reflection results. The JSON files
    themselves are parameters (the decoded contents). */
module Users {
  import opened Common

  /** A user record: its string fields. */
  type User = map<string, string>

  /** A value stored in the users file: a dictionary or anything else. */
  datatype StoredUser = UserDict(fields: User) | NotAUser

  /** `sanitize_user`: a falsy user (missing or empty) gives nothing;
      otherwise every field except `password`. */
  function SanitizeUser(user: Option<User>): (r: Option<User>)
    ensures r.None? <==> user.None? || user.value == map[]
    ensures r.Some? ==> r.value.Keys == user.value.Keys - {"password"}
    ensures r.Some? ==> forall k :: k in r.value ==> r.value[k] == user.value[k]
  {
    if user.None? || user.value == map[] then None
    else Some(map k | k in user.value && k != "password" :: user.value[k])
  }

  /** Sanitising twice is sanitising once, and no sanitised user carries a
      password. */
  lemma SanitizeIdempotent(user: User)
    requires user.Keys - {"password"} != {}
    ensures var once := SanitizeUser(Some(user));
      once.Some? && "password" !in once.value && SanitizeUser(once) == once
  {
    var once := SanitizeUser(Some(user));
    var k :| k in user.Keys - {"password"};
    assert k in once.value;
    var twice := SanitizeUser(once);
    assert once.value != map[];
    assert twice.value.Keys == once.value.Keys;
    assert twice.value == once.value;
  }

  /** `user.get('email', '')`. */
  function EmailOf(u: User): string {
    if "email" in u then u["email"] else ""
  }

  /** The stored value is a user whose e-mail equals `lowered` ignoring
      case. */
  predicate EmailMatches(s: StoredUser, lowered: string) {
    s.UserDict? && ToLower(EmailOf(s.fields)) == lowered
  }

  /** `find_user_by_email`: the first stored user whose e-mail matches
      ignoring case, or nothing for an empty e-mail. */
  method FindUserByEmail(email: string, users: seq<StoredUser>) returns (found: Option<User>)
    ensures found.None? <==> email == [] || forall i :: 0 <= i < |users| ==> !EmailMatches(users[i], ToLower(email))
    ensures found.Some? ==> exists i :: (0 <= i < |users| && EmailMatches(users[i], ToLower(email))
      && found.value == users[i].fields
      && forall j :: 0 <= j < i ==> !EmailMatches(users[j], ToLower(email)))
  {
    if email == [] {
      return None;
    }
    var lowered := ToLower(email);
    for i := 0 to |users|
      invariant forall j :: 0 <= j < i ==> !EmailMatches(users[j], lowered)
    {
      if users[i].UserDict? && ToLower(EmailOf(users[i].fields)) == lowered {
        return Some(users[i].fields);
      }
    }
    return None;
  }

  // ---------------------------------------------------------------------
  // Stored results
  // ---------------------------------------------------------------------

  /** A field of a stored result. */
  datatype Field = Text(s: string) | Object(entries: map<string, string>) | OtherValue

  /** An entry of the results file: a dictionary or anything else. */
  datatype StoredResult = ResultDict(fields: map<string, Field>) | NotAResult

  /** `setdefault('context', 'reflection')` then `setdefault('task_meta', {})`. */
  function WithDefaults(fields: map<string, Field>): (r: map<string, Field>)
    ensures r.Keys == fields.Keys + {"context", "task_meta"}
    ensures forall k :: k in fields ==> r[k] == fields[k]
    ensures "context" !in fields ==> r["context"] == Text("reflection")
    ensures "task_meta" !in fields ==> r["task_meta"] == Object(map[])
  {
    var a := if "context" in fields then fields else fields["context" := Text("reflection")];
    if "task_meta" in a then a else a["task_meta" := Object(map[])]
  }

  /** The entry survives: it is a dictionary and, when a user is given
      (a non-empty id), its `user_id` is that user. */
  predicate Kept(e: StoredResult, userId: string) {
    e.ResultDict? && (userId == [] || ("user_id" in e.fields && e.fields["user_id"] == Text(userId)))
  }

  /** The surviving entries with their defaults, in file order. */
  function LoadedResults(raw: seq<StoredResult>, userId: string): (r: seq<map<string, Field>>)
    ensures |r| <= |raw|
    ensures forall i :: 0 <= i < |r| ==> "context" in r[i] && "task_meta" in r[i]
    ensures userId != [] ==> forall i :: 0 <= i < |r| ==> "user_id" in r[i] && r[i]["user_id"] == Text(userId)
  {
    if raw == [] then []
    else
      var n := |raw| - 1;
      var prefix := LoadedResults(raw[..n], userId);
      if Kept(raw[n], userId) then prefix + [WithDefaults(raw[n].fields)] else prefix
  }

  /** `load_results`: `raw` is `None` when the file does not hold a list. */
  method LoadResults(raw: Option<seq<StoredResult>>, userId: string) returns (normalized: seq<map<string, Field>>)
    ensures normalized == if raw.None? then [] else LoadedResults(raw.value, userId)
  {
    var entries := if raw.Some? then raw.value else [];
    normalized := [];
    for i := 0 to |entries|
      invariant normalized == LoadedResults(entries[..i], userId)
    {
      assert entries[..i + 1][..i] == entries[..i];
      var entry := entries[i];
      if entry.NotAResult? {
        continue;
      }
      var fields := WithDefaults(entry.fields);
      if userId != [] && !("user_id" in fields && fields["user_id"] == Text(userId)) {
        continue;
      }
      normalized := normalized + [fields];
    }
    assert entries[..|entries|] == entries;
  }

  /** Filtering keeps the file order: the results of `a + b` are those of
      `a` followed by those of `b`. */
  lemma {:induction false} LoadedResultsAppend(a: seq<StoredResult>, b: seq<StoredResult>, userId: string)
    ensures LoadedResults(a + b, userId) == LoadedResults(a, userId) + LoadedResults(b, userId)
    decreases |b|
  {
    if b == [] {
      assert a + b == a;
    } else {
      var n := |b| - 1;
      assert (a + b)[..|a| + n] == a + b[..n];
      LoadedResultsAppend(a, b[..n], userId);
    }
  }

  /** An entry is loaded exactly when it survives: a single entry gives one
      result (with its defaults) iff it is kept. */
  lemma LoadedSingle(e: StoredResult, userId: string)
    ensures LoadedResults([e], userId) == if Kept(e, userId) then [WithDefaults(e.fields)] else []
  {
    assert [e][..0] == [];
  }

  /** The number of entries that survive. */
  function KeptCount(raw: seq<StoredResult>, userId: string): nat {
    if raw == [] then 0
    else KeptCount(raw[..|raw| - 1], userId) + (if Kept(raw[|raw| - 1], userId) then 1 else 0)
  }

  /** Nothing that survives is lost and nothing else is added. */
  lemma {:induction false} LoadedResultsCount(raw: seq<StoredResult>, userId: string)
    ensures |LoadedResults(raw, userId)| == KeptCount(raw, userId)
  {
    if raw != [] {
      LoadedResultsCount(raw[..|raw| - 1], userId);
    }
  }
}
