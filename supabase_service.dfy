/**
 * The Supabase data services: the chat-session table with its
 * create / get / update / list / delete / append operations, the doctor
 * request decision, and profile creation with bounded retries.
 *
 * Every remote call is an oracle parameter: `fault` is `Some(message)`
 * when the query builder reports an error, `None` when the query runs.
 * Times are clock readings passed in as `now`; ids the database
 * generates are passed in as `newId`.
 */
module SupabaseService {
  import opened Wrappers
  import opened Text

  // ---------------------------------------------------------------------
  // Rows
  // ---------------------------------------------------------------------

  datatype Sender = UserSender | AiSender

  /** One entry of a session's `messages` column. */
  datatype ChatMessage = ChatMessage(
    id: string,
    sender: Sender,
    content: string,
    timestamp: string,
    audioUrl: Option<string>,
    imageUrl: Option<string>,
    isVoiceMessage: Option<bool>)

  /** A row of `chat_sessions`; the three stamps are clock readings. */
  datatype ChatSession = ChatSession(
    id: string,
    patientId: string,
    sessionName: string,
    messages: seq<ChatMessage>,
    lastMessageAt: nat,
    createdAt: nat,
    updatedAt: nat)

  /** The fields of `Partial<ChatSession>` that callers supply. */
  datatype SessionUpdate = SessionUpdate(sessionName: Option<string>, messages: Option<seq<ChatMessage>>)

  /** The name `createNewSession` gives every session it opens. */
  const DefaultSessionName := "New Chat"

  /** The PostgREST error `.single()` reports when no row matches (code PGRST116). */
  const NoRowsError := "JSON object requested, " + "multiple (or no) rows returned"

  /** The PostgreSQL error for an insert whose primary key is taken. */
  const DuplicateKeyError := "duplicate key value violates " + "unique constraint"

  const NoProfileError := "No profile found"

  // ---------------------------------------------------------------------
  // handleAuthError
  // ---------------------------------------------------------------------

  /** The auth-error callback fires for messages that mention 'JWT' or 'session'. */
  predicate MentionsAuth(message: string)
  {
    Contains(message, "JWT") || Contains(message, "session")
  }

  /** How many callback invocations one pass through handleAuthError adds. */
  function CallbackCount(message: string): (n: nat)
    ensures n <= 1
    ensures n == 1 <==> MentionsAuth(message)
  {
    if MentionsAuth(message) then 1 else 0
  }

  /**
   * Any message naming a JWT or a session reaches the callback, wherever
   * the word sits ("JWT expired", "Auth session missing!").
   */
  lemma AuthWordsFireCallback(before: string, after: string)
    ensures CallbackCount(before + "JWT" + after) == 1
    ensures CallbackCount(before + "session" + after) == 1
  {
    ContainsAt("JWT", "JWT", 0);
    ContainsExtended(before, "JWT", after, "JWT");
    ContainsAt("session", "session", 0);
    ContainsExtended(before, "session", after, "session");
  }

  /** A signed-out createSession does not reach the callback. */
  lemma NoProfileDoesNotFireCallback()
    ensures CallbackCount(NoProfileError) == 0
  {
    NoProfileLacksJwt();
    NoProfileLacksSession();
  }

  lemma NoProfileLacksJwt()
    ensures !Contains(NoProfileError, "JWT")
  {
    NotContainsChar(NoProfileError, "JWT", 0);
  }

  lemma NoProfileLacksSession()
    ensures !Contains(NoProfileError, "session")
  {
    NotContainsChar(NoProfileError, "session", 0);
  }

  // ---------------------------------------------------------------------
  // Ordering for getMySessions
  // ---------------------------------------------------------------------

  /** `.order('last_message_at', { ascending: false })`. */
  predicate NewestFirst(xs: seq<ChatSession>)
  {
    forall i, j :: 0 <= i < j < |xs| ==> xs[i].lastMessageAt >= xs[j].lastMessageAt
  }

  predicate NoDuplicates(xs: seq<ChatSession>)
  {
    forall i, j :: 0 <= i < j < |xs| ==> xs[i] != xs[j]
  }

  /** Places `x` after every entry at least as recent. */
  function InsertByRecency(xs: seq<ChatSession>, x: ChatSession): (r: seq<ChatSession>)
    ensures multiset(r) == multiset(xs) + multiset{x}
    decreases |xs|
  {
    if |xs| == 0 then [x]
    else if xs[0].lastMessageAt >= x.lastMessageAt then
      assert xs == [xs[0]] + xs[1..];
      [xs[0]] + InsertByRecency(xs[1..], x)
    else
      [x] + xs
  }

  lemma {:induction false} InsertKeepsNewestFirst(xs: seq<ChatSession>, x: ChatSession)
    requires NewestFirst(xs)
    ensures NewestFirst(InsertByRecency(xs, x))
    decreases |xs|
  {
    if |xs| > 0 && xs[0].lastMessageAt >= x.lastMessageAt {
      var rest := InsertByRecency(xs[1..], x);
      InsertKeepsNewestFirst(xs[1..], x);
      forall y | y in rest
        ensures y.lastMessageAt <= xs[0].lastMessageAt
      {
        assert y in multiset(rest);
        assert y in xs[1..] || y == x;
      }
    }
  }

  lemma {:induction false} InsertKeepsNoDuplicates(xs: seq<ChatSession>, x: ChatSession)
    requires NoDuplicates(xs) && x !in xs
    ensures NoDuplicates(InsertByRecency(xs, x))
    decreases |xs|
  {
    if |xs| > 0 && xs[0].lastMessageAt >= x.lastMessageAt {
      var rest := InsertByRecency(xs[1..], x);
      assert xs == [xs[0]] + xs[1..];
      InsertKeepsNoDuplicates(xs[1..], x);
      assert xs[0] !in rest by {
        assert xs[0] !in multiset(xs[1..]) + multiset{x};
      }
    }
  }

  /** Inserting keeps every entry and adds only `x`. */
  lemma InsertByRecencyMembers(xs: seq<ChatSession>, x: ChatSession)
    ensures forall s :: s in InsertByRecency(xs, x) <==> s in xs || s == x
  {
    var r := InsertByRecency(xs, x);
    forall s
      ensures s in r <==> s in xs || s == x
    {
      assert s in r <==> s in multiset(r);
      assert s in xs <==> s in multiset(xs);
    }
  }

  /**
   * What `getMySessions` returns for `owner`: exactly that owner's rows,
   * each once, newest first.
   */
  predicate IsSessionListOf(rows: map<string, ChatSession>, owner: string, list: seq<ChatSession>)
  {
    && (forall s :: s in list ==> s.id in rows && rows[s.id] == s && s.patientId == owner)
    && (forall k :: k in rows && rows[k].patientId == owner ==> rows[k] in list)
    && NoDuplicates(list)
    && NewestFirst(list)
  }

  /** The merge `{ ...updates, updated_at: now, last_message_at: now }`. */
  function ApplyUpdate(s: ChatSession, u: SessionUpdate, now: nat): (r: ChatSession)
    ensures r.id == s.id && r.patientId == s.patientId && r.createdAt == s.createdAt
    ensures r.sessionName == (if u.sessionName.Some? then u.sessionName.value else s.sessionName)
    ensures r.messages == (if u.messages.Some? then u.messages.value else s.messages)
    ensures r.lastMessageAt == now && r.updatedAt == now
  {
    s.(sessionName := if u.sessionName.Some? then u.sessionName.value else s.sessionName,
       messages := if u.messages.Some? then u.messages.value else s.messages,
       lastMessageAt := now,
       updatedAt := now)
  }

  /** A rename touches the name and the recency stamps and nothing else. */
  lemma RenameKeepsConversation(s: ChatSession, name: string, now: nat)
    ensures var r := ApplyUpdate(s, SessionUpdate(Some(name), None), now);
      r.sessionName == name && r.messages == s.messages && r.id == s.id
      && r.patientId == s.patientId && r.lastMessageAt == now
      && r == s.(sessionName := name, lastMessageAt := now, updatedAt := now)
  {
  }

  // ---------------------------------------------------------------------
  // chatSessionService
  // ---------------------------------------------------------------------

  /**
   * The `chat_sessions` table as the signed-in client sees it, with the
   * current profile id (`getCurrentProfile`) and the number of times the
   * auth-error callback has fired.
   */
  class ChatSessionStore {
    var rows: map<string, ChatSession>
    const profile: Option<string>
    var authCallbacks: nat

    /** Every row is stored under its own id. */
    predicate Valid()
      reads this
    {
      forall k :: k in rows ==> rows[k].id == k
    }

    constructor (profile: Option<string>)
      ensures Valid()
      ensures rows == map[] && this.profile == profile && authCallbacks == 0
    {
      rows := map[];
      this.profile := profile;
      authCallbacks := 0;
    }

    /** handleAuthError: fires the callback for auth-looking messages, then rethrows. */
    method HandleAuthError(message: string)
      modifies this`authCallbacks
      ensures authCallbacks == old(authCallbacks) + CallbackCount(message)
    {
      if MentionsAuth(message) {
        authCallbacks := authCallbacks + 1;
      }
    }

    /** createSession: a new, empty session owned by the current profile. */
    method CreateSession(sessionName: string, newId: string, now: nat, fault: Option<string>)
      returns (r: Settled<ChatSession>)
      requires Valid()
      modifies this`rows, this`authCallbacks
      ensures Valid()
      ensures profile.None? ==> r == Rejected(NoProfileError)
      ensures profile.Some? && fault.Some? ==> r == Rejected(fault.value)
      ensures profile.Some? && fault.None? && newId in old(rows) ==> r == Rejected(DuplicateKeyError)
      ensures r.Resolved? <==> profile.Some? && fault.None? && newId !in old(rows)
      ensures r.Resolved? ==>
        && r.value == ChatSession(newId, profile.value, sessionName, [], now, now, now)
        && rows == old(rows)[newId := r.value]
      ensures r.Rejected? ==>
        rows == old(rows) && authCallbacks == old(authCallbacks) + CallbackCount(r.message)
      ensures r.Resolved? ==> authCallbacks == old(authCallbacks)
    {
      if profile.None? {
        r := Rejected(NoProfileError);
      } else if fault.Some? {
        r := Rejected(fault.value);
      } else if newId in rows {
        r := Rejected(DuplicateKeyError);
      } else {
        var session := ChatSession(newId, profile.value, sessionName, [], now, now, now);
        rows := rows[newId := session];
        return Resolved(session);
      }
      HandleAuthError(r.message);
    }

    /** getSession: the row with that id; a missing row is an error, not `null`. */
    method GetSession(id: string, fault: Option<string>) returns (r: Settled<ChatSession>)
      requires Valid()
      modifies this`authCallbacks
      ensures fault.Some? ==> r == Rejected(fault.value)
      ensures fault.None? && id !in rows ==> r == Rejected(NoRowsError)
      ensures fault.None? && id in rows ==> r == Resolved(rows[id])
      ensures r.Resolved? ==> authCallbacks == old(authCallbacks) && r.value.id == id
      ensures r.Rejected? ==> authCallbacks == old(authCallbacks) + CallbackCount(r.message)
    {
      if fault.Some? {
        r := Rejected(fault.value);
      } else if id !in rows {
        r := Rejected(NoRowsError);
      } else {
        return Resolved(rows[id]);
      }
      HandleAuthError(r.message);
    }

    /** updateSession: merges the supplied fields and bumps both stamps. */
    method UpdateSession(id: string, updates: SessionUpdate, now: nat, fault: Option<string>)
      returns (r: Settled<ChatSession>)
      requires Valid()
      modifies this`rows, this`authCallbacks
      ensures Valid()
      ensures fault.Some? ==> r == Rejected(fault.value)
      ensures fault.None? && id !in old(rows) ==> r == Rejected(NoRowsError)
      ensures fault.None? && id in old(rows) ==>
        && r == Resolved(ApplyUpdate(old(rows)[id], updates, now))
        && rows == old(rows)[id := r.value]
      ensures r.Rejected? ==>
        rows == old(rows) && authCallbacks == old(authCallbacks) + CallbackCount(r.message)
      ensures r.Resolved? ==> authCallbacks == old(authCallbacks)
    {
      if fault.Some? {
        r := Rejected(fault.value);
      } else if id !in rows {
        r := Rejected(NoRowsError);
      } else {
        var updated := ApplyUpdate(rows[id], updates, now);
        rows := rows[id := updated];
        return Resolved(updated);
      }
      HandleAuthError(r.message);
    }

    /** getMySessions: the current profile's sessions, newest first; [] without a profile. */
    method GetMySessions(fault: Option<string>) returns (r: Settled<seq<ChatSession>>)
      requires Valid()
      modifies this`authCallbacks
      ensures profile.None? ==> r == Resolved([]) && authCallbacks == old(authCallbacks)
      ensures profile.Some? && fault.Some? ==>
        r == Rejected(fault.value) && authCallbacks == old(authCallbacks) + CallbackCount(fault.value)
      ensures profile.Some? && fault.None? ==>
        r.Resolved? && IsSessionListOf(rows, profile.value, r.value) && authCallbacks == old(authCallbacks)
    {
      if profile.None? {
        return Resolved([]);
      }
      if fault.Some? {
        HandleAuthError(fault.value);
        return Rejected(fault.value);
      }
      var list := OwnedSessions(profile.value);
      r := Resolved(list);
    }

    /** The select of getMySessions: every row of `owner`, each once, newest first. */
    method OwnedSessions(owner: string) returns (acc: seq<ChatSession>)
      requires Valid()
      ensures IsSessionListOf(rows, owner, acc)
    {
      var remaining := rows.Keys;
      acc := [];
      while remaining != {}
        invariant remaining <= rows.Keys
        invariant forall s :: s in acc ==>
          s.id in rows && rows[s.id] == s && s.patientId == owner && s.id !in remaining
        invariant forall k :: k in rows && k !in remaining && rows[k].patientId == owner ==> rows[k] in acc
        invariant NoDuplicates(acc) && NewestFirst(acc)
        decreases remaining
      {
        var k :| k in remaining;
        if rows[k].patientId == owner {
          var row := rows[k];
          assert row.id == k && row !in acc;
          InsertKeepsNewestFirst(acc, row);
          InsertKeepsNoDuplicates(acc, row);
          InsertByRecencyMembers(acc, row);
          acc := InsertByRecency(acc, row);
        }
        remaining := remaining - {k};
      }
    }

    /** getAllSessions: the same list as getMySessions. */
    method GetAllSessions(fault: Option<string>) returns (r: Settled<seq<ChatSession>>)
      requires Valid()
      modifies this`authCallbacks
      ensures profile.None? ==> r == Resolved([])
      ensures profile.Some? && fault.Some? ==> r == Rejected(fault.value)
      ensures profile.Some? && fault.None? ==> r.Resolved? && IsSessionListOf(rows, profile.value, r.value)
      ensures authCallbacks
              == old(authCallbacks) + (if profile.Some? && fault.Some? then CallbackCount(fault.value) else 0)
    {
      r := GetMySessions(fault);
    }

    /** deleteSession: drops the row; deleting an absent id still reports success. */
    method DeleteSession(id: string, fault: Option<string>) returns (r: Settled<bool>)
      requires Valid()
      modifies this`rows, this`authCallbacks
      ensures Valid()
      ensures fault.Some? ==>
        && r == Rejected(fault.value) && rows == old(rows)
        && authCallbacks == old(authCallbacks) + CallbackCount(fault.value)
      ensures fault.None? ==>
        r == Resolved(true) && rows == old(rows) - {id} && authCallbacks == old(authCallbacks)
    {
      if fault.Some? {
        HandleAuthError(fault.value);
        return Rejected(fault.value);
      }
      rows := rows - {id};
      r := Resolved(true);
    }

    /**
     * saveMessage: reads the session, then writes back its message list
     * with `message` appended. A failed read passes through
     * handleAuthError twice (once in getSession, once here).
     */
    method SaveMessage(sessionId: string, message: ChatMessage, now: nat,
                       readFault: Option<string>, writeFault: Option<string>)
      returns (r: Settled<bool>)
      requires Valid()
      modifies this`rows, this`authCallbacks
      ensures Valid()
      ensures r.Resolved? <==> readFault.None? && sessionId in old(rows) && writeFault.None?
      ensures r.Resolved? ==>
        && r.value
        && rows == old(rows)[sessionId := old(rows)[sessionId].(
             messages := old(rows)[sessionId].messages + [message],
             lastMessageAt := now,
             updatedAt := now)]
        && authCallbacks == old(authCallbacks)
      ensures r.Rejected? ==> rows == old(rows)
      ensures readFault.Some? ==>
        r == Rejected(readFault.value)
        && authCallbacks == old(authCallbacks) + 2 * CallbackCount(readFault.value)
      ensures readFault.None? && sessionId !in old(rows) ==> r == Rejected(NoRowsError)
      ensures readFault.None? && sessionId in old(rows) && writeFault.Some? ==>
        r == Rejected(writeFault.value)
        && authCallbacks == old(authCallbacks) + CallbackCount(writeFault.value)
    {
      var read := GetSession(sessionId, readFault);
      if read.Rejected? {
        HandleAuthError(read.message);
        return Rejected(read.message);
      }
      var session := read.value;
      var updatedMessages := session.messages + [message];
      if writeFault.Some? {
        HandleAuthError(writeFault.value);
        return Rejected(writeFault.value);
      }
      rows := rows[sessionId := session.(messages := updatedMessages, lastMessageAt := now, updatedAt := now)];
      r := Resolved(true);
    }

    /** createNewSession: createSession('New Chat'); its failure is rethrown, never `null`. */
    method CreateNewSession(newId: string, now: nat, fault: Option<string>) returns (r: Settled<ChatSession>)
      requires Valid()
      modifies this`rows, this`authCallbacks
      ensures Valid()
      ensures r.Resolved? <==> profile.Some? && fault.None? && newId !in old(rows)
      ensures r.Resolved? ==>
        && r.value == ChatSession(newId, profile.value, DefaultSessionName, [], now, now, now)
        && rows == old(rows)[newId := r.value]
      ensures r.Rejected? ==> rows == old(rows)
      ensures profile.None? ==> r == Rejected(NoProfileError)
      ensures profile.Some? && fault.Some? ==> r == Rejected(fault.value)
      ensures profile.Some? && fault.None? && newId in old(rows) ==> r == Rejected(DuplicateKeyError)
      ensures r.Rejected? ==> authCallbacks == old(authCallbacks) + CallbackCount(r.message)
      ensures r.Resolved? ==> authCallbacks == old(authCallbacks)
    {
      r := CreateSession(DefaultSessionName, newId, now, fault);
    }

    /** updateSessionName: true when the renamed row comes back; failures rethrow. */
    method UpdateSessionName(id: string, name: string, now: nat, fault: Option<string>)
      returns (r: Settled<bool>)
      requires Valid()
      modifies this`rows, this`authCallbacks
      ensures Valid()
      ensures r.Resolved? <==> fault.None? && id in old(rows)
      ensures r.Resolved? ==>
        && r.value
        && rows == old(rows)[id := old(rows)[id].(sessionName := name, lastMessageAt := now, updatedAt := now)]
      ensures r.Rejected? ==> rows == old(rows)
      ensures fault.Some? ==> r == Rejected(fault.value)
      ensures fault.None? && id !in old(rows) ==> r == Rejected(NoRowsError)
      ensures r.Rejected? ==> authCallbacks == old(authCallbacks) + CallbackCount(r.message)
      ensures r.Resolved? ==> authCallbacks == old(authCallbacks)
    {
      var updated := UpdateSession(id, SessionUpdate(Some(name), None), now, fault);
      if updated.Rejected? {
        return Rejected(updated.message);
      }
      RenameKeepsConversation(old(rows)[id], name, now);
      r := Resolved(true);
    }
  }

  // ---------------------------------------------------------------------
  // patientDoctorRequestService.updateRequestStatus
  // ---------------------------------------------------------------------

  /** A row of `patient_doctor_requests`. */
  datatype DoctorRequest = DoctorRequest(
    id: string,
    patientId: string,
    doctorId: string,
    status: string,
    respondedAt: Option<nat>)

  /** A row of `patient_doctor_relationships`. */
  datatype Relationship = Relationship(patientId: string, doctorId: string)

  datatype Decision = Approve | Reject

  function StatusText(d: Decision): string
  {
    match d
    case Approve => "approved"
    case Reject => "rejected"
  }

  /** The two request tables. */
  class RequestStore {
    var requests: map<string, DoctorRequest>
    var relationships: seq<Relationship>
    var authCallbacks: nat

    constructor (requests: map<string, DoctorRequest>)
      ensures this.requests == requests && relationships == [] && authCallbacks == 0
    {
      this.requests := requests;
      relationships := [];
      authCallbacks := 0;
    }

    /**
     * updateRequestStatus: records the decision and the response time; an
     * approval whose request can be read back adds a relationship. The
     * read-back and the insert report their errors to nobody.
     */
    method UpdateRequestStatus(requestId: string, decision: Decision, now: nat,
                               updateFault: Option<string>, readBackFails: bool, insertFails: bool)
      returns (r: Settled<bool>)
      modifies this
      ensures updateFault.Some? ==>
        && r == Rejected(updateFault.value)
        && requests == old(requests) && relationships == old(relationships)
        && authCallbacks == old(authCallbacks) + CallbackCount(updateFault.value)
      ensures updateFault.None? ==> r == Resolved(true) && authCallbacks == old(authCallbacks)
      ensures updateFault.None? ==>
        requests == (if requestId in old(requests)
                     then old(requests)[requestId := old(requests)[requestId].(
                            status := StatusText(decision), respondedAt := Some(now))]
                     else old(requests))
      ensures updateFault.None? ==>
        relationships ==
          (if decision == Approve && requestId in old(requests) && !readBackFails && !insertFails
           then old(relationships) + [Relationship(old(requests)[requestId].patientId, old(requests)[requestId].doctorId)]
           else old(relationships))
    {
      if updateFault.Some? {
        if MentionsAuth(updateFault.value) {
          authCallbacks := authCallbacks + 1;
        }
        return Rejected(updateFault.value);
      }
      if requestId in requests {
        requests := requests[requestId := requests[requestId].(status := StatusText(decision), respondedAt := Some(now))];
      }
      if decision == Approve {
        if requestId in requests && !readBackFails {
          var request := requests[requestId];
          if !insertFails {
            relationships := relationships + [Relationship(request.patientId, request.doctorId)];
          }
        }
      }
      r := Resolved(true);
    }
  }

  // ---------------------------------------------------------------------
  // profileService.createProfileFromAuth
  // ---------------------------------------------------------------------

  datatype Profile = Profile(id: string, userId: string, email: string, fullName: string, role: string)

  /** An error object from PostgREST: its `code` and `message`. */
  datatype PgError = PgError(code: string, message: string)

  const MaxRetries := 3

  /** The PostgREST code for "not exactly one row". */
  const NotOneRowCode := "PGRST116"

  /** How many insert attempts run when the first |insertErrors| attempts fail. */
  function InsertAttempts(failures: nat): (n: nat)
    ensures 1 <= n <= MaxRetries
    ensures n == MaxRetries || n == failures + 1
    ensures failures < MaxRetries ==> n == failures + 1
    ensures failures >= MaxRetries ==> n == MaxRetries
  {
    if failures + 1 < MaxRetries then failures + 1 else MaxRetries
  }

  /** The `profiles` table, keyed by the auth user id. */
  class ProfileStore {
    var profiles: map<string, Profile>

    constructor (profiles: map<string, Profile>)
      ensures this.profiles == profiles
    {
      this.profiles := profiles;
    }

    /**
     * createProfileFromAuth: returns the existing profile without
     * inserting; otherwise tries the insert up to three times. The first
     * |insertErrors| attempts fail with those messages and the next one
     * succeeds. `attempts` counts the inserts issued.
     */
    method CreateProfileFromAuth(userId: string, email: string, name: string, role: string,
                                 checkError: Option<PgError>, newId: string, insertErrors: seq<string>)
      returns (r: Settled<Profile>, attempts: nat)
      modifies this
      ensures checkError.Some? && checkError.value.code != NotOneRowCode ==>
        r == Rejected(checkError.value.message) && attempts == 0 && profiles == old(profiles)
      ensures checkError.None? && userId in old(profiles) ==>
        r == Resolved(old(profiles)[userId]) && attempts == 0 && profiles == old(profiles)
      ensures (checkError.Some? && checkError.value.code == NotOneRowCode) || (checkError.None? && userId !in old(profiles)) ==>
        && attempts == InsertAttempts(|insertErrors|)
        && (|insertErrors| >= MaxRetries ==> r == Rejected(insertErrors[MaxRetries - 1]) && profiles == old(profiles))
        && (|insertErrors| < MaxRetries ==>
              r == Resolved(Profile(newId, userId, email, name, role))
              && profiles == old(profiles)[userId := r.value])
      ensures attempts <= MaxRetries
    {
      attempts := 0;
      if checkError.Some? && checkError.value.code != NotOneRowCode {
        return Rejected(checkError.value.message), 0;
      }
      if checkError.None? && userId in profiles {
        return Resolved(profiles[userId]), 0;
      }
      var retryCount := 0;
      r := Rejected("Failed to create profile after retries");
      while retryCount < MaxRetries
        invariant retryCount < MaxRetries && retryCount <= |insertErrors|
        invariant attempts == retryCount
        invariant profiles == old(profiles)
        decreases MaxRetries - retryCount
      {
        attempts := attempts + 1;
        if retryCount < |insertErrors| {
          var error := insertErrors[retryCount];
          retryCount := retryCount + 1;
          if retryCount >= MaxRetries {
            r := Rejected(error);
            break;
          }
          continue;
        }
        var profile := Profile(newId, userId, email, name, role);
        profiles := profiles[userId := profile];
        return Resolved(profile), attempts;
      }
    }
  }
}
