/** The lifecycle operations of one agent. Each public method is the body that runs while
    the lock of its agent is held, so it starts from a fresh section and owes nothing when
    it returns. */
module Service {
  import opened Text
  import opened Records
  import opened Stores
  import opened Sections
  import opened Locality
  import opened Clients
  import opened History

  datatype Outcome =
    | Failed
    | Succeeded(agent: string, displayName: string, avatarUrl: string, userId: string, sessionId: string,
                oneTimeToken: string, generation: int, status: Status)

  function ResultFromRecord(r: Record, includeToken: bool): Outcome {
    Succeeded(r.name, r.displayName, r.avatarUrl, r.userId, r.sessionId, if includeToken then r.token else "",
              r.generation, r.status)
  }

  /** The record's credential works: its session is live and has the record's token. */
  predicate CredentialWorks(w: World, r: Record) {
    r.sessionId in w.sessions && w.sessions[r.sessionId].live && w.sessions[r.sessionId].token == r.token
  }

  /** The token was issued between the two worlds. */
  predicate IssuedIn(w0: World, w1: World, token: string) {
    token in w1.tokens && token !in w0.tokens && w0.clock <= w1.tokens[token] <= w1.clock
  }

  /** The record lost its token material, just now. */
  predicate StoredCleared(w0: World, w1: World, n: string, status: Status) {
    && n in w0.records && n in w1.records && IsCleared(w1.records[n], w0.records[n], status)
    && w1.records[n].updatedAt == w1.clock
  }

  /** The result describes the agent of record `r0` without a session or token. */
  predicate SaysNoToken(res: Outcome, r0: Record, status: Status) {
    res == Succeeded(r0.name, r0.displayName, r0.avatarUrl, r0.userId, "", "", r0.generation, status)
  }

  /** What is lost with the token material, and what is kept. */
  lemma ClearedKeepsMetadata(w0: World, w1: World, n: string, status: Status)
    requires StoredCleared(w0, w1, n, status)
    ensures var r0, r1 := w0.records[n], w1.records[n];
      && r1.token == "" && r1.sessionId == "" && r1.status == status && r1.updatedAt == w1.clock
      && r1.name == r0.name && r1.displayName == r0.displayName && r1.avatarUrl == r0.avatarUrl
      && r1.userId == r0.userId && r1.generation == r0.generation && r1.createdAt == r0.createdAt
  {
  }

  /** Records, sessions and users are as before. */
  predicate Untouched(w0: World, w1: World) {
    w1.records == w0.records && w1.sessions == w0.sessions && w1.users == w0.users
  }

  /** A deactivated record belongs to a deactivated user without live sessions. */
  predicate Retired(w: World, n: string) {
    n in w.records && w.records[n].status.Deactivated? ==> UserRetired(w, w.records[n].userId)
  }

  /** The token of the record is dated, when one operation led from `w0` to `w1`. */
  predicate Dates(w0: World, w1: World, n: string, kind: Kind) {
    Dated(Find(w0.records, n), Find(w1.records, n), kind, w0.tokens, w1.tokens, w0.clock, w1.clock)
  }

  /** What every operation promises to a run of operations, whatever its outcome. */
  ghost predicate Performed(w0: World, w1: World, e: Event) {
    && EventStep(w0.records, w1.records, e) && Dates(w0, w1, e.name, e.kind) && OnlyAgent(w0, w1, e.name)
    && (Retired(w0, e.name) ==> Retired(w1, e.name))
  }

  predicate UserRetired(w: World, u: string) {
    u in w.users && w.users[u].deactivated && LiveSessions(w.sessions, u) == {}
  }

  function IfNamed(s: string): set<string> {
    if s == "" then {} else {s}
  }

  /** No user other than a deactivated one with name `n` differs from before. */
  predicate UsersBack(w0: World, w1: World, n: string) {
    && w0.users.Keys <= w1.users.Keys
    && forall u | u in w1.users ::
         || (u in w0.users && w1.users[u] == w0.users[u])
         || (&& w1.users[u].name == n && w1.users[u].deactivated
             && if u in w0.users then w0.users[u] == w1.users[u].(deactivated := w0.users[u].deactivated)
                else !w1.users[u].locked)
  }

  lemma UsersUntouched(w0: World, w1: World, n: string)
    requires w1.users == w0.users
    ensures UsersBack(w0, w1, n)
  {
  }

  /** The live sessions are those of before, less `gone`. */
  ghost predicate SessionsBack(w0: World, w1: World, gone: set<string>) {
    forall v :: LiveSessions(w1.sessions, v) == LiveSessions(w0.sessions, v) - gone
  }

  /** What compensation came to: `users` and `sessions` say whether users and sessions are back.
      Each compensation call is made whatever came of the other. */
  predicate Compensated(w0: World, w1: World, users: bool, sessions: bool) {
    && w1.undone >= w0.undone && (w1.undone == w0.undone ==> users && sessions)
    && (w1.undone == w0.undone + 1 ==> users || sessions)
  }

  /** A failed Create: no record is touched, and if every compensation call succeeded no
      session is left and the user is absent, deactivated or untouched. If all but one
      succeeded, one of the two is so. */
  ghost predicate CreateUndone(w0: World, w1: World, n: string) {
    && w1.records == w0.records
    && (n in w0.records ==> w1.users == w0.users && w1.sessions == w0.sessions)
    && Compensated(w0, w1, UsersBack(w0, w1, n), SessionsBack(w0, w1, {}))
  }

  /** Taking back what Create has made by `w1`, the user `u` and the sessions `made`. */
  lemma CompensationUndoes(w0: World, w1: World, w: World, n: string, u: string, made: set<string>)
    requires n !in w0.records && w.records == w0.records && w1.undone == w0.undone
    requires u in w1.users && w1.users == w0.users[u := User(n, false, false)]
    requires u in w0.users ==> w0.users[u] == User(n, true, false)
    requires forall v :: LiveSessions(w1.sessions, v) - made == LiveSessions(w0.sessions, v)
    requires Compensated(w1, w, w.users == w1.users[u := User(n, true, false)], SessionsBack(w1, w, made))
    ensures CreateUndone(w0, w, n)
  {
    hide LiveSessions;
    assert forall v :: LiveSessions(w0.sessions, v) - {} == LiveSessions(w0.sessions, v);
  }

  /** A successful Create: a first-generation record with a working credential, on the user
      that already had the name if there was one. */
  predicate CreateDone(w0: World, w1: World, n: string, displayName: string, res: Outcome) {
    && n !in w0.records && n in w1.records
    && var r := w1.records[n];
    && res == Succeeded(n, displayName, "", r.userId, r.sessionId, r.token, 1, Active)
    && r == Record(n, displayName, "", r.userId, r.sessionId, r.token, r.version, 1, Active, w1.clock, w1.clock)
    && UserOf(w1, n, r.userId) && Usable(w1, r.userId)
    && CredentialWorks(w1, r) && w1.sessions[r.sessionId].actor == r.userId && r.sessionId !in w0.sessions
    && IssuedIn(w0, w1, r.token)
    && (Named(w0, n) ==> UserOf(w0, n, r.userId))
  }

  /** The name is free for a new agent: no record, and no user or an orphaned one. */
  predicate Creatable(w: World, n: string) {
    n !in w.records && forall u | u in w.users && w.users[u].name == n :: w.users[u].deactivated && !w.users[u].locked
  }

  /** A failed Create whose compensation worked leaves the name as free as it was. */
  lemma CreateIsRetryable(w0: World, w1: World, n: string)
    requires Creatable(w0, n) && CreateUndone(w0, w1, n) && w1.undone == w0.undone
    ensures Creatable(w1, n)
  {
  }

  /** The session of an active record is live. */
  predicate Startable(w: World, r: Record) {
    r.status.Active? ==> r.sessionId in w.sessions && w.sessions[r.sessionId].live
  }

  /** What a successful Rotate does to the record `r0` of `n` and the sessions of its user. */
  predicate RotateDone(w0: World, w1: World, n: string, r0: Record, res: Outcome) {
    && n in w1.records
    && var r1 := w1.records[n];
    && res == Succeeded(r0.name, r0.displayName, r0.avatarUrl, r0.userId, r1.sessionId, r1.token, r0.generation + 1,
                        Active)
    && !r0.status.Deactivated?
    && SameButVersion(r1, r0.(sessionId := r1.sessionId, token := r1.token, generation := r0.generation + 1,
                              status := Active, updatedAt := r1.updatedAt))
    && CredentialWorks(w1, r1) && w1.sessions[r1.sessionId].actor == r0.userId
    && w1.sessions[r1.sessionId].issuedAt <= r1.updatedAt == w1.clock
    && IssuedIn(w0, w1, r1.token)
    && LiveSessions(w1.sessions, r0.userId) == LiveSessions(w0.sessions, r0.userId) - {r0.sessionId} + {r1.sessionId}
  }

  /** What a failed Rotate may leave of the record `r0`: all of it, a revoked record, or none. */
  predicate RotateUndone(w0: World, w1: World, n: string, r0: Record) {
    Find(w1.records, n) == Some(r0) || StoredCleared(w0, w1, n, Revoked) || n !in w1.records
  }

  /** With at most one fault, a failed Rotate leaves the old credential, or a revoked record
      and no trace of the credential. With two it leaves no record of a token that died. */
  predicate RotateSafe(w0: World, w1: World, n: string, r0: Record) {
    && (w1.faults <= w0.faults + 1 && Startable(w0, r0) ==>
          || (&& Find(w1.records, n) == Some(r0)
              && LiveSessions(w1.sessions, r0.userId) == LiveSessions(w0.sessions, r0.userId)
              && (CredentialWorks(w0, r0) ==> CredentialWorks(w1, r0)))
          || (&& StoredCleared(w0, w1, n, Revoked)
              && LiveSessions(w1.sessions, r0.userId) == LiveSessions(w0.sessions, r0.userId) - {r0.sessionId}))
    && (w1.faults <= w0.faults + 2 ==>
          || (Find(w1.records, n) == Some(r0) && (CredentialWorks(w0, r0) ==> CredentialWorks(w1, r0)))
          || Dropped(w0, w1, n))
  }

  /** The record lost its token material, or is gone. */
  predicate Dropped(w0: World, w1: World, n: string) {
    StoredCleared(w0, w1, n, Revoked) || n !in w1.records
  }

  /** A Rotate that left the record alone, and its session if that worked, is safe. */
  lemma LeftAloneIsSafe(w0: World, w1: World, n: string, r0: Record)
    requires Find(w0.records, n) == Some(r0) && w1.records == w0.records
    requires CredentialWorks(w0, r0) ==> CredentialWorks(w1, r0)
    requires w1.faults <= w0.faults + 1 && Startable(w0, r0) ==>
      LiveSessions(w1.sessions, r0.userId) == LiveSessions(w0.sessions, r0.userId)
    ensures RotateUndone(w0, w1, n, r0) && RotateSafe(w0, w1, n, r0)
  {
    hide LiveSessions; hide CredentialWorks;
  }

  /** A Rotate after which the record was dropped, if at most two calls failed, is safe. */
  lemma DroppedIsSafe(w0: World, w1: World, n: string, r0: Record)
    requires Find(w0.records, n) == Some(r0) && (w1.records == w0.records || Dropped(w0, w1, n))
    requires w1.faults <= w0.faults + 2 ==> Dropped(w0, w1, n)
    requires w1.faults <= w0.faults + 1 ==>
      && StoredCleared(w0, w1, n, Revoked)
      && LiveSessions(w1.sessions, r0.userId) == LiveSessions(w0.sessions, r0.userId) - {r0.sessionId}
    ensures RotateUndone(w0, w1, n, r0) && RotateSafe(w0, w1, n, r0)
  {
    hide LiveSessions; hide CredentialWorks;
  }

  lemma RotatePerforms(w0: World, w1: World, n: string, res: Outcome)
    requires OnlyAgent(w0, w1, n) && OnlyRecord(w0, w1, n) && w1.users == w0.users
    requires n !in w0.records ==> res.Failed? && w1.records == w0.records
    requires n in w0.records ==>
      var r0 := w0.records[n];
      && (r0.status.Deactivated? ==> w1.records == w0.records && w1.sessions == w0.sessions)
      && (if res.Succeeded? then RotateDone(w0, w1, n, r0, res) else RotateUndone(w0, w1, n, r0))
    ensures Performed(w0, w1, Event(Rotates, n, res.Succeeded?))
  {
    hide OnlyAgent; hide LiveSessions; hide CredentialWorks;
  }

  lemma CreatePerforms(w0: World, w1: World, n: string, displayName: string, res: Outcome)
    requires OnlyAgent(w0, w1, n) && OnlyRecord(w0, w1, n)
    requires if res.Succeeded? then CreateDone(w0, w1, n, displayName, res) else CreateUndone(w0, w1, n)
    ensures Performed(w0, w1, Event(Creates, n, res.Succeeded?))
  {
    hide OnlyAgent; hide LiveSessions; hide CredentialWorks; hide UsersBack; hide Named;
  }

  lemma ListedStep(list: seq<Listed>, i: nat)
    requires i < |list| && Distinct(list)
    ensures list[i].id == "" || list[i].revoked ==> ListedLive(list[i..]) == ListedLive(list[i + 1..])
    ensures list[i].id != "" && !list[i].revoked ==>
      ListedLive(list[i..]) - {list[i].id} == ListedLive(list[i + 1..]) && list[i].id in ListedLive(list[i..])
  {
    var rest, tail := list[i..], list[i + 1..];
    forall s ensures s in ListedLive(rest) <==>
        s in ListedLive(tail) || (s == list[i].id && s != "" && !list[i].revoked)
    {
      if s in ListedLive(tail) {
        var j :| 0 <= j < |tail| && tail[j].id == s && s != "" && !tail[j].revoked;
        assert rest[j + 1] == tail[j];
      }
      if s in ListedLive(rest) {
        var j :| 0 <= j < |rest| && rest[j].id == s && s != "" && !rest[j].revoked;
        if j > 0 { assert tail[j - 1] == rest[j]; }
      }
    }
    forall j | 0 <= j < |tail| && list[i].id != "" ensures tail[j].id != list[i].id {
      assert tail[j] == list[i + 1 + j];
    }
  }

  lemma ListedNone(list: seq<Listed>)
    ensures ListedLive(list[|list|..]) == {}
  {
  }

  lemma TakenName(w: World, n: string)
    requires n in w.records
    ensures !Creatable(w, n)
  {
  }

  lemma SoleUser(w: World, n: string, u: string)
    requires Structured(w) && UserOf(w, n, u)
    ensures forall v | v in w.users && w.users[v].name == n :: v == u
  {
  }

  /** A live session of one user is not a live session of another. */
  lemma LiveOwner(sessions: map<string, Session>, s: string)
    ensures forall u, v | u != v && s in LiveSessions(sessions, u) :: s !in LiveSessions(sessions, v)
    ensures forall u | s in LiveSessions(sessions, u) :: s in sessions && sessions[s].live
  {
  }

  class Service {
    const out: Clients
    /** Whether the token scope holds the device placeholder. */
    const deviceScoped: bool
    /** Whether sessionScope finds a valid scope for the name. */
    const scopeOk: string -> bool

    /** Whether profile and device check clients are configured, and the user ID template is valid. */
    const hasProfile: bool
    const hasRecovery: bool
    const userIdOk: bool

    constructor (out: Clients, deviceScoped: bool, scopeOk: string -> bool, hasProfile: bool, hasRecovery: bool,
                 userIdOk: bool)
      ensures this.out == out && this.deviceScoped == deviceScoped && this.scopeOk == scopeOk
      ensures this.hasProfile == hasProfile && this.hasRecovery == hasRecovery && this.userIdOk == userIdOk
    {
      this.out, this.deviceScoped, this.scopeOk := out, deviceScoped, scopeOk;
      this.hasProfile, this.hasRecovery, this.userIdOk := hasProfile, hasRecovery, userIdOk;
    }

    /** Whether Create accepts the name and the display name, if nothing fails. */
    predicate CreateAccepts(w: World, n: string, rawDisplayName: string) {
      && 1 <= |TrimSpace(rawDisplayName)| <= 256 && scopeOk(n) && (hasProfile ==> userIdOk)
      && Creatable(w, n) && w.checks.name(n) && w.checks.avatar("")
    }

    /** Rotate refuses without asking MAS, or because the session of an active record is dead. */
    predicate RotateRefuses(w: World, n: string) {
      n !in w.records ||
      var r := w.records[n];
      || r.status.Deactivated? || !Startable(w, r)
      || ((!r.status.Active? || r.sessionId == "" || deviceScoped) && !scopeOk(n))
    }

    method ClearTokenMaterial(n: string, status: Status) returns (ok: bool)
      requires out.Valid() && out.section.agent == n && (status.Revoked? || status.Deactivated?)
      requires n in out.w.records ==>
        out.w.records[n].sessionId == "" || out.w.records[n].sessionId in out.section.settled
      modifies out`w, out`section
      ensures out.Valid() && out.section.agent == n && out.section.loose <= old(out.section.loose)
      ensures !ok && old(MayDrop(out.section)) ==> MayDrop(out.section)
      ensures out.w == old(out.w).(records := out.w.records, revision := out.w.revision, clock := out.w.clock,
        faults := out.w.faults)
      ensures out.w.faults >= old(out.w.faults) && OnlyRecord(old(out.w), out.w, n)
      ensures ok ==> (n !in old(out.w.records) && n !in out.w.records) || StoredCleared(old(out.w), out.w, n, status)
      ensures !ok ==> out.w.records == old(out.w.records) && out.w.faults > old(out.w.faults)
    {
      hide Structured; hide Contained; hide Owned; hide OnlyAgent;
      for attempt := 0 to 3
        invariant out.Valid() && attempt == 0
        invariant out.w == old(out.w) && out.section == old(out.section)
      {
        var got := out.GetAgent(n);
        if got.NotFound? {
          return true;
        }
        if !got.ARecord? {
          return false;
        }
        var now := out.ReadClock();
        var put := out.UpdateAgent(Cleared(got.record, status, now));
        if put.Stored? {
          return true;
        }
        if !put.Conflict? {
          return false;
        }
      }
      return false;
    }

    /** Drop the token material of the record, or the record itself. */
    method ClearOrDelete(n: string)
      requires out.Valid() && out.section.agent == n && MayDrop(out.section)
      requires n in out.w.records && out.section.loaded == Some(out.w.records[n])
      modifies out`w, out`section
      ensures out.Valid() && out.section.agent == n && out.section.loose <= old(out.section.loose)
      ensures out.w == old(out.w).(records := out.w.records, revision := out.w.revision, clock := out.w.clock,
        faults := out.w.faults)
      ensures out.w.faults >= old(out.w.faults) && OnlyRecord(old(out.w), out.w, n)
      ensures out.w.records == old(out.w.records) || Dropped(old(out.w), out.w, n)
      ensures out.w.faults == old(out.w.faults) ==> StoredCleared(old(out.w), out.w, n, Revoked)
      ensures out.w.faults <= old(out.w.faults) + 1 ==> Dropped(old(out.w), out.w, n)
    {
      hide Structured; hide Contained; hide Owned; hide OnlyAgent;
      var cleared := ClearTokenMaterial(n, Revoked);
      if !cleared {
        var _ := out.DeleteAgent(n);
      }
    }

    /** Get a new token: by regenerating the session, or by a second session. */
    method IssueReplacement(n: string, record: Record, regenerated: bool) returns (session: Reply)
      requires out.Valid() && out.section.agent == n && out.section.loose == {}
      requires n in out.w.records && out.w.records[n] == record && RecordFits(out.w, n, record)
      requires out.section.loaded == Some(record) && record.userId in out.section.users
      requires record.sessionId != "" ==> record.sessionId in out.section.sessions
      requires regenerated ==> record.status.Active?
      modifies out`w, out`section
      ensures out.Valid() && out.section.agent == n && out.w.faults >= old(out.w.faults)
      ensures out.w.users == old(out.w.users) && OnlyRecord(old(out.w), out.w, n)
      ensures session.ASession? ==>
        && session.id in out.section.sessions && session.id != "" && session.token != ""
        && IssuedIn(old(out.w), out.w, session.token)
        && out.w == old(out.w).(sessions := out.w.sessions, tokens := out.w.tokens, clock := out.w.clock,
          created := out.w.created)
        && out.section == (if regenerated then old(out.section)
                           else Advance(old(out.section), CreateSession(record.userId), session))
        && (regenerated ==> session.id == record.sessionId && session.id in old(out.w.sessions))
        && (!regenerated ==> session.id !in old(out.w.sessions))
        && (regenerated == (session.id in LiveSessions(old(out.w).sessions, record.userId)))
        && out.w.sessions == old(out.w.sessions)[session.id := Session(record.userId, true, session.token, session.at)]
        && LiveSessions(out.w.sessions, record.userId) ==
             LiveSessions(old(out.w).sessions, record.userId) + {session.id}
        && session.at <= out.w.clock && (regenerated ==> old(out.w.sessions)[session.id].live)
        && (regenerated || scopeOk(n))
        && out.w.created == old(out.w.created) + if regenerated then {} else {session.id}
      ensures !session.ASession? ==>
        && out.section.loose == {}
        && RotateUndone(old(out.w), out.w, n, record) && RotateSafe(old(out.w), out.w, n, record)
        && (out.w.faults == old(out.w.faults) ==>
            (!regenerated && !scopeOk(n)) || !Usable(old(out.w), record.userId) || !Startable(old(out.w), record))
    {
      hide Structured; hide Contained; hide Owned; hide OnlyAgent; hide RotateSafe; hide RotateUndone;
      if regenerated {
        session := out.RegeneratePersonalSession(record.sessionId);
      } else {
        if !scopeOk(n) {
          LeftAloneIsSafe(out.w, out.w, n, record);
          return Refused;
        }
        session := out.CreatePersonalSession(record.userId);
      }
      if !session.ASession? {
        LeftAloneIsSafe(old(out.w), out.w, n, record);
        return;
      }
      if session.id == "" || session.token == "" {
        if session.id != "" {
          var _ := out.RevokePersonalSession(session.id);
        }
        if regenerated {
          ClearOrDelete(n);
          DroppedIsSafe(old(out.w), out.w, n, record);
        } else {
          LeftAloneIsSafe(old(out.w), out.w, n, record);
        }
        session := Refused;
      }
    }

    /** Get a new token and retire the previous session if the token came with a second one. */
    method ReplaceSession(n: string, record: Record, regenerated: bool) returns (session: Reply)
      requires out.Valid() && out.section.agent == n && out.section.loose == {}
      requires n in out.w.records && out.w.records[n] == record && RecordFits(out.w, n, record)
      requires out.section.loaded == Some(record) && record.userId in out.section.users
      requires record.sessionId != "" ==> record.sessionId in out.section.sessions
      requires regenerated == (record.status.Active? && record.sessionId != "" && !deviceScoped)
      requires !record.status.Deactivated?
      requires "" !in LiveSessions(out.w.sessions, record.userId)
      modifies out`w, out`section
      ensures out.Valid() && out.section.agent == n && out.w.faults >= old(out.w.faults)
      ensures out.w.users == old(out.w.users) && OnlyRecord(old(out.w), out.w, n)
      ensures session.ASession? ==>
        && session.id in out.section.sessions && session.id != "" && session.token != ""
        && IssuedIn(old(out.w), out.w, session.token)
        && out.w.records == old(out.w.records) && out.w.checks == old(out.w.checks)
        && out.section.loaded == Some(record)
        && (session.id == record.sessionId || (session.id in out.section.loose && MayDrop(out.section)))
        && out.section.loose <= {session.id}
        && session.id in out.w.sessions
        && out.w.sessions[session.id] == Session(record.userId, true, session.token, session.at)
        && session.at <= out.w.clock && out.w.faults == old(out.w.faults)
        && !RotateRefuses(old(out.w), n)
        && (if regenerated then session.id == record.sessionId else session.id !in old(out.w.sessions))
        && out.w.created == old(out.w.created) + (if regenerated then {} else {session.id})
        && LiveSessions(out.w.sessions, record.userId)
           == LiveSessions(old(out.w).sessions, record.userId) - {record.sessionId} + {session.id}
        && LiveSessions(out.w.sessions, record.userId) - {session.id}
           == LiveSessions(old(out.w).sessions, record.userId) - {record.sessionId}
      ensures !session.ASession? ==>
        && out.section.loose == {}
        && RotateUndone(old(out.w), out.w, n, record) && RotateSafe(old(out.w), out.w, n, record)
        && (out.w.faults == old(out.w.faults) ==>
            RotateRefuses(old(out.w), n) || !Usable(old(out.w), record.userId))
    {
      hide Structured; hide Contained; hide Owned; hide OnlyAgent; hide LiveSessions; hide RotateSafe;
      hide RotateUndone;
      ghost var live := LiveSessions(out.w.sessions, record.userId);
      session := IssueReplacement(n, record, regenerated);
      if !session.ASession? {
        return;
      }
      ghost var now := LiveSessions(out.w.sessions, record.userId);
      assert !regenerated ==> now - {} - {session.id} == live;
      assert regenerated ==> now - {session.id} == live - {session.id};
      if regenerated && session.id != record.sessionId {
        assert false;
      }
      if !regenerated && record.sessionId != "" {
        var revoked := out.RevokePersonalSession(record.sessionId);
        if revoked.Failed() {
          var _ := out.RevokePersonalSession(session.id);
          LeftAloneIsSafe(old(out.w), out.w, n, record);
          return Refused;
        }
      }
    }

    /** Persist the new credential, or withdraw it. */
    method StoreReplacement(n: string, record: Record, session: Reply) returns (res: Outcome)
      requires out.Valid() && out.section.agent == n
      requires n in out.w.records && out.w.records[n] == record && record.name == n && Acceptable(record, out.w.checks)
      requires out.section.loaded == Some(record) && !record.status.Deactivated?
      requires session.ASession? && session.id in out.section.sessions && session.id != "" && session.token != ""
      requires session.id == record.sessionId || (session.id in out.section.loose && MayDrop(out.section))
      requires out.section.loose <= {session.id}
      requires session.id in out.w.sessions
        && out.w.sessions[session.id] == Session(record.userId, true, session.token, session.at)
      requires session.at <= out.w.clock
      modifies out`w, out`section
      ensures out.Valid() && out.section.agent == n && out.section.loose == {}
      ensures out.w.users == old(out.w.users) && OnlyRecord(old(out.w), out.w, n) && out.w.faults >= old(out.w.faults)
      ensures res.Succeeded? ==>
        && out.w.sessions == old(out.w.sessions) && n in out.w.records
        && res == ResultFromRecord(out.w.records[n], true)
        && SameButVersion(out.w.records[n], record.(sessionId := session.id, token := session.token,
             generation := record.generation + 1, status := Active, updatedAt := out.w.clock))
        && session.at <= out.w.clock && out.w.tokens == old(out.w.tokens) && out.w.clock >= old(out.w.clock)
        && out.w.created == old(out.w.created) && out.w.faults == old(out.w.faults)
      ensures res.Failed? ==> RotateUndone(old(out.w), out.w, n, record) && out.w.faults > old(out.w.faults)
      ensures res.Failed? && out.w.faults == old(out.w.faults) + 1 ==>
        && StoredCleared(old(out.w), out.w, n, Revoked)
        && forall v :: LiveSessions(out.w.sessions, v) == LiveSessions(old(out.w).sessions, v) - {session.id}
      ensures res.Failed? && out.w.faults <= old(out.w.faults) + 2 ==> Dropped(old(out.w), out.w, n)
    {
      hide Structured; hide Contained; hide Owned; hide OnlyAgent; hide LiveSessions;
      var now := out.ReadClock();
      var updated := record.(sessionId := session.id, token := session.token, generation := record.generation + 1,
                             status := Active, updatedAt := now);
      var put := out.UpdateAgent(updated);
      if put.Failed() {
        if !put.Conflict? {
          var _ := out.RevokePersonalSession(session.id);
          ClearOrDelete(n);
        }
        return Failed;
      }
      res := ResultFromRecord(updated, true);
    }

    lemma RefusesUnrotatable(w: World, n: string)
      ensures n !in w.records || w.records[n].status.Deactivated? ==> RotateRefuses(w, n)
    {
    }

    method Rotate(n: string) returns (res: Outcome)
      requires out.Begun(n)
      modifies out`w, out`section
      ensures out.Valid() && out.section.agent == n && out.section.loose == {}
      ensures out.w.users == old(out.w.users) && OnlyRecord(old(out.w), out.w, n) && out.w.faults >= old(out.w.faults)
      ensures n !in old(out.w.records) ==> res.Failed? && out.w.records == old(out.w.records)
      ensures n in old(out.w.records) ==>
        var r0 := old(out.w.records)[n];
        && (r0.status.Deactivated? ==> out.w.records == old(out.w.records) && out.w.sessions == old(out.w.sessions))
        && (res.Succeeded? ==> RotateDone(old(out.w), out.w, n, r0, res))
        && (res.Succeeded? ==>
            if r0.status.Active? && r0.sessionId != "" && !deviceScoped
            then out.w.records[n].sessionId == r0.sessionId && out.w.created == old(out.w.created)
            else out.w.records[n].sessionId !in old(out.w.sessions)
                 && out.w.created == old(out.w.created) + {out.w.records[n].sessionId})
        && (res.Failed? ==> RotateUndone(old(out.w), out.w, n, r0) && RotateSafe(old(out.w), out.w, n, r0))
        && (res.Failed? && out.w.faults == old(out.w.faults) ==>
            RotateRefuses(old(out.w), n) || !Usable(old(out.w), r0.userId))
      ensures RotateRefuses(old(out.w), n) || out.w.faults > old(out.w.faults) ==> res.Failed?
      ensures Performed(old(out.w), out.w, Event(Rotates, n, res.Succeeded?))
    {
      hide Structured; hide Contained; hide Owned; hide OnlyAgent; hide RotateRefuses; hide Performed;
      RefusesUnrotatable(out.w, n);
      var got := out.GetAgent(n);
      if !got.ARecord? {
        RotatePerforms(old(out.w), out.w, n, Failed);
        return Failed;
      }
      var record := got.record;
      if record.status.Deactivated? {
        RotatePerforms(old(out.w), out.w, n, Failed);
        return Failed;
      }
      var regenerated := record.status.Active? && record.sessionId != "" && !deviceScoped;
      var session := ReplaceSession(n, record, regenerated);
      if !session.ASession? {
        RotatePerforms(old(out.w), out.w, n, Failed);
        return Failed;
      }
      res := StoreReplacement(n, record, session);
      RotatePerforms(old(out.w), out.w, n, res);
    }

    /** Revoke every session MAS lists as active for the user of the record. */
    method RevokeActiveSessions(record: Record) returns (ok: bool)
      requires out.Valid() && record.userId in out.section.users
      modifies out`w, out`section
      ensures out.Valid() && out.section.agent == old(out.section.agent) && out.section.loose <= old(out.section.loose)
      ensures out.section.loaded == old(out.section.loaded) && old(out.section.users) <= out.section.users
      ensures out.w == old(out.w).(sessions := out.w.sessions, unrevoked := out.w.unrevoked, faults := out.w.faults,
        undone := out.w.undone)
      ensures out.w.faults >= old(out.w.faults)
      ensures forall v | v != record.userId :: LiveSessions(out.w.sessions, v) == LiveSessions(old(out.w).sessions, v)
      ensures ok ==>
        && LiveSessions(out.w.sessions, record.userId) == {}
        && old(out.section.sessions) <= out.section.settled
        && out.w.faults == old(out.w.faults) && out.w.undone == old(out.w.undone)
      ensures !ok ==> out.w.faults > old(out.w.faults)
      ensures !ok && out.w.undone == old(out.w.undone) ==> out.w.sessions == old(out.w.sessions)
      ensures out.w.undone >= old(out.w.undone)
    {
      hide Structured; hide Contained; hide Owned; hide OnlyAgent; hide LiveSessions; hide ListedLive;
      var u := record.userId;
      var listed := out.ListPersonalSessions(u);
      if !listed.Sessions? {
        return false;
      }
      var list := listed.list;
      ghost var section := out.section;
      assert list[0..] == list;
      for i := 0 to |list|
        invariant out.Valid() && out.section == section.(settled := out.section.settled, loose := out.section.loose)
        invariant out.section.loose <= old(out.section.loose)
        invariant out.w == old(out.w).(sessions := out.w.sessions, unrevoked := out.w.unrevoked,
          faults := out.w.faults, undone := out.w.undone)
        invariant out.w.faults == old(out.w.faults) && out.w.undone == old(out.w.undone)
        invariant LiveSessions(out.w.sessions, u) == ListedLive(list[i..])
        invariant forall v | v != u :: LiveSessions(out.w.sessions, v) == LiveSessions(old(out.w).sessions, v)
        invariant section.sessions <= out.section.settled + ListedLive(list[i..])
          && ListedLive(list[i..]) <= section.sessions
      {
        ListedStep(list, i);
        if list[i].id == "" {
          continue;
        }
        if list[i].revoked {
          continue;
        }
        LiveOwner(out.w.sessions, list[i].id);
        var revoked := out.RevokePersonalSession(list[i].id);
        if revoked.Failed() {
          return false;
        }
      }
      assert ListedLive(list[|list|..]) == {} by { ListedNone(list); }
      ok := true;
    }

    method Revoke(n: string) returns (res: Outcome)
      requires out.Begun(n)
      modifies out`w, out`section
      ensures out.Valid() && out.section.agent == n && out.section.loose == {}
      ensures out.w.users == old(out.w.users) && OnlyRecord(old(out.w), out.w, n)
      ensures res.Succeeded? ==>
        && n in old(out.w.records) && !old(out.w.records)[n].status.Deactivated?
        && StoredCleared(old(out.w), out.w, n, Revoked) && SaysNoToken(res, old(out.w.records)[n], Revoked)
        && LiveSessions(out.w.sessions, out.w.records[n].userId) == {}
      ensures res.Succeeded? <==>
        && n in old(out.w.records) && !old(out.w.records)[n].status.Deactivated?
        && out.w.faults == old(out.w.faults)
      ensures res.Failed? && out.w.faults <= old(out.w.faults) + 1 && out.w.undone == old(out.w.undone) ==>
        || Untouched(old(out.w), out.w)
        || (StoredCleared(old(out.w), out.w, n, Revoked) && LiveSessions(out.w.sessions, out.w.records[n].userId) == {})
      ensures res.Failed? ==>
        || Find(out.w.records, n) == Find(old(out.w.records), n)
        || (StoredCleared(old(out.w), out.w, n, Revoked) && LiveSessions(out.w.sessions, out.w.records[n].userId) == {})
      ensures n in old(out.w.records) && old(out.w.records)[n].status.Deactivated? ==>
        out.w.records == old(out.w.records) && out.w.sessions == old(out.w.sessions)
      ensures Performed(old(out.w), out.w, Event(Revokes, n, res.Succeeded?))
    {
      hide Structured; hide Contained; hide Owned; hide OnlyAgent; hide LiveSessions;
      var got := out.GetAgent(n);
      if !got.ARecord? {
        return Failed;
      }
      var record := got.record;
      if record.status.Deactivated? {
        return Failed;
      }
      var revoked := RevokeActiveSessions(record);
      if !revoked {
        return Failed;
      }
      var now := out.ReadClock();
      record := Cleared(record, Revoked, now);
      var put := out.UpdateAgent(record);
      if put.Failed() {
        var _ := ClearTokenMaterial(n, Revoked);
        return Failed;
      }
      res := ResultFromRecord(record, false);
    }

    method Deactivate(n: string) returns (res: Outcome)
      requires out.Begun(n)
      modifies out`w, out`section
      ensures out.Valid() && out.section.agent == n && out.section.loose == {}
      ensures OnlyRecord(old(out.w), out.w, n)
      ensures res.Succeeded? ==>
        && n in old(out.w.records) && n in out.w.records && out.w.records[n].status.Deactivated?
        && SaysNoToken(res, old(out.w.records)[n], Deactivated)
        && (old(out.w.records)[n].status.Deactivated? ==> out.w.records == old(out.w.records))
        && (!old(out.w.records)[n].status.Deactivated? ==>
              StoredCleared(old(out.w), out.w, n, Deactivated) && UserRetired(out.w, out.w.records[n].userId))
      ensures res.Failed? ==>
        || Find(out.w.records, n) == Find(old(out.w.records), n)
        || (StoredCleared(old(out.w), out.w, n, Deactivated) && UserRetired(out.w, out.w.records[n].userId))
      ensures res.Failed? && out.w.faults <= old(out.w.faults) + 1 && out.w.undone == old(out.w.undone) ==>
        || Untouched(old(out.w), out.w)
        || (StoredCleared(old(out.w), out.w, n, Deactivated) && UserRetired(out.w, out.w.records[n].userId))
      ensures res.Succeeded? <==> n in old(out.w.records) && out.w.faults == old(out.w.faults)
      ensures Performed(old(out.w), out.w, Event(Deactivates, n, res.Succeeded?))
    {
      hide Structured; hide Contained; hide Owned; hide OnlyAgent; hide LiveSessions;
      var got := out.GetAgent(n);
      if !got.ARecord? {
        return Failed;
      }
      var record := got.record;
      if record.status.Deactivated? {
        return ResultFromRecord(record, false);
      }
      var revoked := RevokeActiveSessions(record);
      if !revoked {
        return Failed;
      }
      var deactivated := out.DeactivateUser(record.userId);
      if deactivated.Failed() {
        return Failed;
      }
      var now := out.ReadClock();
      record := Cleared(record, Deactivated, now);
      var put := out.UpdateAgent(record);
      if put.Failed() {
        var _ := ClearTokenMaterial(n, Deactivated);
        return Failed;
      }
      res := ResultFromRecord(record, false);
    }

    method Remove(n: string) returns (res: Outcome)
      requires out.Begun(n)
      modifies out`w, out`section
      ensures out.Valid() && out.section.agent == n && out.section.loose == {}
      ensures OnlyRecord(old(out.w), out.w, n)
      ensures res.Succeeded? ==>
        && n in old(out.w.records) && n !in out.w.records
        && (old(out.w.records)[n].status.Deactivated? || UserRetired(out.w, old(out.w.records)[n].userId))
        && (Retired(old(out.w), n) ==> UserRetired(out.w, old(out.w.records)[n].userId))
        && SaysNoToken(res, old(out.w.records)[n], Deactivated)
      ensures res.Failed? ==>
        || Find(out.w.records, n) == Find(old(out.w.records), n)
        || (StoredCleared(old(out.w), out.w, n, Deactivated) && UserRetired(out.w, out.w.records[n].userId))
      ensures res.Failed? && out.w.faults <= old(out.w.faults) + 1 && out.w.undone == old(out.w.undone) ==>
        || Untouched(old(out.w), out.w)
        || (StoredCleared(old(out.w), out.w, n, Deactivated) && UserRetired(out.w, out.w.records[n].userId))
      ensures res.Succeeded? <==> n in old(out.w.records) && out.w.faults == old(out.w.faults)
      ensures Performed(old(out.w), out.w, Event(Removes, n, res.Succeeded?))
    {
      hide Structured; hide Contained; hide Owned; hide OnlyAgent; hide LiveSessions;
      var got := out.GetAgent(n);
      if !got.ARecord? {
        return Failed;
      }
      var record := got.record;
      if record.status.Deactivated? {
        var dropped := out.DeleteAgent(n);
        if dropped.Failed() {
          return Failed;
        }
        return ResultFromRecord(record, false);
      }
      var revoked := RevokeActiveSessions(record);
      if !revoked {
        return Failed;
      }
      var deactivated := out.DeactivateUser(record.userId);
      if deactivated.Failed() {
        return Failed;
      }
      var dropped := out.DeleteAgent(n);
      if dropped.Failed() {
        var _ := ClearTokenMaterial(n, Deactivated);
        return Failed;
      }
      record := record.(sessionId := "", token := "", status := Deactivated);
      res := ResultFromRecord(record, false);
    }

    /** Revoke the session, if any, and deactivate the user. */
    method CleanupProvisionedUser(u: string, s: string) returns (ok: bool)
      requires out.Valid() && u in out.section.users && (s != "" ==> s in out.section.sessions)
      modifies out`w, out`section
      ensures out.Valid() && out.section.agent == old(out.section.agent)
        && out.section.loose <= old(out.section.loose) - IfNamed(s)
      ensures out.w == old(out.w).(sessions := out.w.sessions, unrevoked := out.w.unrevoked, users := out.w.users,
                                   faults := out.w.faults, undone := out.w.undone)
      ensures out.w.faults >= old(out.w.faults) && out.w.undone >= old(out.w.undone) && u in old(out.w.users)
      ensures ok == (out.w.undone == old(out.w.undone))
      ensures Compensated(old(out.w), out.w,
        out.w.users == old(out.w.users)[u := old(out.w.users)[u].(deactivated := true)],
        SessionsBack(old(out.w), out.w, IfNamed(s)))
    {
      hide Structured; hide Contained; hide Owned; hide OnlyAgent; hide LiveSessions;
      ok := true;
      if s != "" {
        var revoked := out.RevokePersonalSession(s);
        ok := !revoked.Failed();
      }
      var deleted := out.DeactivateUser(u);
      if deleted.Failed() {
        return false;
      }
    }

    method ProvisionUser(n: string) returns (user: Option<string>)
      requires out.Begun(n)
      modifies out`w, out`section
      ensures out.Valid() && out.section.agent == n && out.section.loose == {}
      ensures out.w == old(out.w).(users := out.w.users, faults := out.w.faults) && out.w.faults >= old(out.w.faults)
      ensures user.None? ==> out.w.users == old(out.w.users)
      ensures user.None? && out.w.faults == old(out.w.faults) ==> !Creatable(old(out.w), n)
      ensures user.Some? && n !in old(out.w.records) ==> Creatable(old(out.w), n)
      ensures user.Some? ==> out.w.faults == old(out.w.faults)
      ensures user.Some? ==>
        && user.value in out.section.users && user.value != ""
        && UserOf(out.w, n, user.value) && Usable(out.w, user.value)
        && (user.value in old(out.w.users) ==> old(out.w.users)[user.value] == User(n, true, false))
        && (user.value in old(out.w.users) <==> Named(old(out.w), n))
        && out.w.users == old(out.w.users)[user.value := out.w.users[user.value]]
    {
      hide Structured; hide Contained; hide Owned; hide OnlyAgent;
      var found := out.GetUserByUsername(n);
      if found.AUser? {
        SoleUser(out.w, n, found.id);
        if !found.user.deactivated {
          return None;
        }
        if found.user.locked {
          return None;
        }
        var reactivated := out.ReactivateUser(found.id);
        return if reactivated.AUser? then Some(reactivated.id) else None;
      }
      if found.NotFound? {
        var created := out.CreateUser(n);
        return if created.AUser? then Some(created.id) else None;
      }
      return None;
    }

    method SyncProfile(n: string, displayName: string) returns (ok: bool)
      requires out.Valid() && out.section.agent == n
      modifies out`w, out`section
      ensures out.Valid() && out.section == old(out.section)
      ensures out.w == old(out.w).(profiles := out.w.profiles, faults := out.w.faults)
        && out.w.faults >= old(out.w.faults)
      ensures ok && hasProfile ==> Shown(out.w.profiles, n).displayName == displayName
      ensures !ok && out.w.faults == old(out.w.faults) ==> hasProfile && !userIdOk
      ensures ok ==> out.w.faults == old(out.w.faults) && (hasProfile ==> userIdOk)
    {
      if !hasProfile {
        return true;
      }
      if !userIdOk {
        return false;
      }
      var named := out.SetProfile(n, DisplayName, displayName);
      ok := !named.Failed();
    }

    /** Open a session for the provisioned user and give the profile its name. */
    method OpenSession(n: string, u: string, displayName: string) returns (session: Reply)
      requires out.Valid() && out.section.agent == n && out.section.loose == {}
      requires u in out.section.users && UserOf(out.w, n, u)
      modifies out`w, out`section
      ensures out.Valid() && out.section.agent == n
      ensures out.w.records == old(out.w.records) && out.w.checks == old(out.w.checks)
      ensures out.w.faults >= old(out.w.faults) && out.w.undone >= old(out.w.undone)
      ensures session.ASession? ==>
        && session.id != "" && session.token != "" && session.id !in old(out.w.sessions)
        && IssuedIn(old(out.w), out.w, session.token)
        && out.section.loose == {session.id} && u in out.section.users && session.id in out.section.sessions
        && out.w.undone == old(out.w.undone) && out.w.faults == old(out.w.faults)
        && out.w.users == old(out.w.users)
        && (hasProfile ==> userIdOk && Shown(out.w.profiles, n).displayName == displayName)
        && out.w.sessions == old(out.w.sessions)[session.id := Session(u, true, session.token, session.at)]
        && forall v :: LiveSessions(out.w.sessions, v) - {session.id} == LiveSessions(old(out.w).sessions, v)
      ensures !session.ASession? ==>
        && out.section.loose == {}
        && Compensated(old(out.w), out.w,
             out.w.users == old(out.w.users)[u := old(out.w.users)[u].(deactivated := true)],
             SessionsBack(old(out.w), out.w, {}))
      ensures !session.ASession? && out.w.faults == old(out.w.faults) ==>
        !Usable(old(out.w), u) || (hasProfile && !userIdOk)
    {
      hide Structured; hide Contained; hide Owned; hide OnlyAgent;
      session := out.CreatePersonalSession(u);
      if !session.ASession? {
        var _ := out.DeactivateUser(u);
        return;
      }
      assert forall v :: session.id !in LiveSessions(old(out.w).sessions, v);
      if session.token == "" {
        var _ := CleanupProvisionedUser(u, session.id);
        return Refused;
      }
      var profiled := SyncProfile(n, displayName);
      if !profiled {
        var _ := CleanupProvisionedUser(u, session.id);
        return Refused;
      }
    }

    /** Store the record of a new agent, or take the session and the user back. */
    method StoreNew(n: string, displayName: string, u: string, session: Reply) returns (res: Outcome)
      requires out.Valid() && out.section.agent == n && n !in out.w.records
      requires u in out.section.users && u != "" && u in out.w.users && 1 <= |displayName| <= 256
      requires session.ASession? && session.id != "" && session.token != "" && session.id in out.section.sessions
      requires out.section.loose == {session.id}
      modifies out`w, out`section
      ensures out.Valid() && out.section.agent == n && out.section.loose == {} && OnlyRecord(old(out.w), out.w, n)
      ensures out.w.checks == old(out.w.checks) && out.w.faults >= old(out.w.faults)
        && out.w.undone >= old(out.w.undone)
      ensures res.Succeeded? ==>
        && out.w.users == old(out.w.users) && out.w.sessions == old(out.w.sessions)
        && out.w.profiles == old(out.w.profiles) && out.w.tokens == old(out.w.tokens) && out.w.clock >= old(out.w.clock)
        && n in out.w.records
        && out.w.records[n] == Record(n, displayName, "", u, session.id, session.token, out.w.records[n].version,
             1, Active, out.w.clock, out.w.clock)
        && res == ResultFromRecord(out.w.records[n], true) && out.w.checks.name(n) && out.w.checks.avatar("")
        && out.w.faults == old(out.w.faults)
      ensures res.Failed? ==> out.w.records == old(out.w.records)
      ensures res.Failed? ==>
        Compensated(old(out.w), out.w,
          out.w.users == old(out.w.users)[u := old(out.w.users)[u].(deactivated := true)],
          SessionsBack(old(out.w), out.w, {session.id}))
      ensures res.Failed? && out.w.faults == old(out.w.faults) ==> !out.w.checks.name(n) || !out.w.checks.avatar("")
    {
      hide Structured; hide Contained; hide Owned; hide OnlyAgent; hide LiveSessions;
      var now := out.ReadClock();
      var record := Record(n, displayName, "", u, session.id, session.token, 0, 1, Active, now, now);
      var put := out.CreateAgent(record);
      if put.Failed() {
        var _ := CleanupProvisionedUser(u, session.id);
        return Failed;
      }
      res := ResultFromRecord(record, true);
    }

    lemma NothingCreated(w0: World, w1: World, n: string)
      requires w1 == w0.(faults := w1.faults)
      ensures CreateUndone(w0, w1, n)
    {
      UsersUntouched(w0, w1, n);
    }

    /** What Create does under the lock, with a valid display name and scope. */
    method CreateLocked(n: string, displayName: string) returns (res: Outcome)
      requires out.Begun(n) && 1 <= |displayName| <= 256 && scopeOk(n)
      modifies out`w, out`section
      ensures out.Valid() && out.section.agent == n && out.section.loose == {} && OnlyRecord(old(out.w), out.w, n)
      ensures OnlyAgent(old(out.w), out.w, n) && out.w.checks == old(out.w.checks)
      ensures res.Succeeded? ==> CreateDone(old(out.w), out.w, n, displayName, res)
      ensures res.Succeeded? && hasProfile ==> Shown(out.w.profiles, n).displayName == displayName
      ensures res.Failed? ==> CreateUndone(old(out.w), out.w, n)
      ensures res.Succeeded? ==>
        && (hasProfile ==> userIdOk) && Creatable(old(out.w), n)
        && old(out.w).checks.name(n) && old(out.w).checks.avatar("") && out.w.faults == old(out.w.faults)
      ensures res.Failed? && out.w.faults == old(out.w.faults) ==>
        || (hasProfile && !userIdOk) || !Creatable(old(out.w), n)
        || !old(out.w).checks.name(n) || !old(out.w).checks.avatar("")
    {
      hide Structured; hide Contained; hide Owned; hide OnlyAgent; hide LiveSessions;
      hide UsersBack; hide Named; hide Creatable; hide Compensated; hide SessionsBack; hide CreateUndone;
      var got := out.GetAgent(n);
      NothingCreated(old(out.w), out.w, n);
      if !got.NotFound? {
        if got.ARecord? { TakenName(old(out.w), n); }
        return Failed;
      }
      var user := ProvisionUser(n);
      if user.None? {
        NothingCreated(old(out.w), out.w, n);
        return Failed;
      }
      var u := user.value;
      ghost var provisioned := out.w;
      assert forall v :: LiveSessions(out.w.sessions, v) - {} == LiveSessions(old(out.w).sessions, v);
      var session := OpenSession(n, u, displayName);
      if !session.ASession? {
        CompensationUndoes(old(out.w), provisioned, out.w, n, u, {});
        return Failed;
      }
      ghost var withSession := out.w;
      res := StoreNew(n, displayName, u, session);
      if res.Failed? {
        CompensationUndoes(old(out.w), withSession, out.w, n, u, {session.id});
      }
    }

    method Create(n: string, rawDisplayName: string) returns (res: Outcome)
      requires out.Begun(n)
      modifies out`w, out`section
      ensures out.Valid() && out.section.agent == n && out.section.loose == {} && OnlyRecord(old(out.w), out.w, n)
      ensures res.Succeeded? ==> CreateDone(old(out.w), out.w, n, TrimSpace(rawDisplayName), res)
      ensures res.Succeeded? && hasProfile ==> Shown(out.w.profiles, n).displayName == TrimSpace(rawDisplayName)
      ensures res.Failed? ==> CreateUndone(old(out.w), out.w, n)
      ensures res.Succeeded? <==>
        CreateAccepts(old(out.w), n, rawDisplayName) && out.w.faults == old(out.w.faults)
      ensures Performed(old(out.w), out.w, Event(Creates, n, res.Succeeded?))
    {
      hide Structured; hide Contained; hide Owned; hide OnlyAgent; hide LiveSessions; hide TrimSpace;
      hide UsersBack; hide Named; hide Creatable; hide Performed; hide CreateDone; hide CreateUndone;
      var displayName := TrimSpace(rawDisplayName);
      if displayName == "" || |displayName| > 256 || !scopeOk(n) {
        NothingCreated(out.w, out.w, n);
        CreatePerforms(out.w, out.w, n, displayName, Failed);
        return Failed;
      }
      res := CreateLocked(n, displayName);
      CreatePerforms(old(out.w), out.w, n, displayName, res);
    }

    /** Persist the URL of an avatar that is already shown, or show the old one again. */
    method StoreAvatar(n: string, record: Record, url: string) returns (res: Outcome)
      requires out.Valid() && out.section.agent == n && out.section.loose == {}
      requires n in out.w.records && out.w.records[n] == record && RecordFits(out.w, n, record)
      requires out.section.loaded == Some(record) && out.w.checks.avatar(url)
        && Shown(out.w.profiles, n).avatarUrl == url
      modifies out`w, out`section
      ensures out.Valid() && out.section.agent == n && out.section.loose == {} && OnlyRecord(old(out.w), out.w, n)
      ensures out.w.users == old(out.w.users) && out.w.sessions == old(out.w.sessions)
      ensures res.Succeeded? ==>
        && n in out.w.records && out.w.profiles == old(out.w.profiles) && out.w.checks == old(out.w.checks)
        && res == ResultFromRecord(out.w.records[n], false) && out.w.clock >= old(out.w.clock)
        && SameButVersion(out.w.records[n], record.(avatarUrl := url, updatedAt := out.w.clock))
        && out.w.faults == old(out.w.faults)
      ensures res.Failed? ==>
        && out.w.records == old(out.w.records)
        && out.w.faults > old(out.w.faults)
        && (out.w.faults > old(out.w.faults) + 1 || Shown(out.w.profiles, n).avatarUrl == record.avatarUrl)
    {
      hide Structured; hide Contained; hide Owned; hide OnlyAgent; hide LiveSessions;
      var now := out.ReadClock();
      var updated := record.(avatarUrl := url, updatedAt := now);
      var put := out.UpdateAgent(updated);
      if put.Failed() {
        var _ := out.SetProfile(n, AvatarUrl, record.avatarUrl);
        return Failed;
      }
      res := ResultFromRecord(updated, false);
    }

    /** `uploaded` is the URL that the upload answered, if it was made and did not fail. */
    method SetAvatar(n: string) returns (res: Outcome, uploaded: Option<string>)
      requires out.Begun(n)
      modifies out`w, out`section
      ensures out.Valid() && out.section.agent == n && out.section.loose == {} && OnlyRecord(old(out.w), out.w, n)
      ensures out.w.users == old(out.w.users) && out.w.sessions == old(out.w.sessions)
      ensures res.Succeeded? ==>
        && n in old(out.w.records) && n in out.w.records && old(out.w.records)[n].status.Active?
        && var r := out.w.records[n];
        && Shown(out.w.profiles, n).avatarUrl == r.avatarUrl && out.w.checks.avatar(r.avatarUrl)
        && res == Succeeded(r.name, r.displayName, r.avatarUrl, r.userId, r.sessionId, "", r.generation, Active)
        && SameButVersion(r, old(out.w.records)[n].(avatarUrl := r.avatarUrl, updatedAt := out.w.clock))
        && uploaded == Some(r.avatarUrl)
      ensures uploaded.Some? ==> n in old(out.w.records) && old(out.w.records)[n].status.Active? && userIdOk
      ensures out.w.faults == old(out.w.faults) && n in old(out.w.records) && old(out.w.records)[n].status.Active?
              && userIdOk ==>
        uploaded.Some?
      ensures res.Succeeded? <==>
        uploaded.Some? && out.w.checks.avatar(uploaded.value) && out.w.faults == old(out.w.faults)
      ensures res.Failed? ==> out.w.records == old(out.w.records)
      ensures res.Failed? && out.w.faults <= old(out.w.faults) + 1 ==>
        || Shown(out.w.profiles, n).avatarUrl == Shown(old(out.w.profiles), n).avatarUrl
        || (n in old(out.w.records) && Shown(out.w.profiles, n).avatarUrl == old(out.w.records)[n].avatarUrl)
      ensures Performed(old(out.w), out.w, Event(SetsAvatar, n, res.Succeeded?))
    {
      hide Structured; hide Contained; hide Owned; hide OnlyAgent; hide LiveSessions;
      res, uploaded := Failed, None;
      var got := out.GetAgent(n);
      if !got.ARecord? {
        return;
      }
      var record := got.record;
      if !record.status.Active? || record.token == "" || !userIdOk {
        return;
      }
      var upload := out.Consult(true);
      if !upload.Url? {
        return;
      }
      uploaded := Some(upload.text);
      if !out.w.checks.avatar(upload.text) {
        return;
      }
      var shown := out.SetProfile(n, AvatarUrl, upload.text);
      if shown.Failed() {
        return;
      }
      res := StoreAvatar(n, record, upload.text);
    }

    /** Rotate, then report on the device. The check runs after the lock is released and
        never undoes the rotation. */
    method Recover(n: string) returns (rotated: Outcome, device: bool)
      requires out.Begun(n)
      modifies out`w, out`section
      ensures out.Valid() && out.section.agent == n && out.section.loose == {} && OnlyRecord(old(out.w), out.w, n)
      ensures out.w.users == old(out.w.users)
      ensures n !in old(out.w.records) ==> rotated.Failed? && out.w.records == old(out.w.records)
      ensures n in old(out.w.records) ==>
        var r0 := old(out.w.records)[n];
        && (r0.status.Deactivated? ==> out.w.records == old(out.w.records) && out.w.sessions == old(out.w.sessions))
        && (rotated.Succeeded? ==> RotateDone(old(out.w), out.w, n, r0, rotated))
        && (rotated.Succeeded? ==>
            if r0.status.Active? && r0.sessionId != "" && !deviceScoped
            then out.w.records[n].sessionId == r0.sessionId && out.w.created == old(out.w.created)
            else out.w.records[n].sessionId !in old(out.w.sessions)
                 && out.w.created == old(out.w.created) + {out.w.records[n].sessionId})
        && (rotated.Failed? ==> RotateUndone(old(out.w), out.w, n, r0) && RotateSafe(old(out.w), out.w, n, r0))
        && (rotated.Failed? && out.w.faults == old(out.w.faults) ==>
            RotateRefuses(old(out.w), n) || !Usable(old(out.w), r0.userId))
      ensures RotateRefuses(old(out.w), n) ==> rotated.Failed?
      ensures Performed(old(out.w), out.w, Event(Rotates, n, rotated.Succeeded?))
      ensures rotated.Failed? ==> !device
      ensures rotated.Succeeded? ==> (device <==> !hasRecovery || (userIdOk && out.w.faults == old(out.w.faults)))
      ensures rotated.Succeeded? && (!hasRecovery || !userIdOk) ==> out.w.faults == old(out.w.faults)
    {
      hide Structured; hide Contained; hide Owned; hide OnlyAgent;
      rotated := Rotate(n);
      if rotated.Failed? {
        return rotated, false;
      }
      if !hasRecovery {
        return rotated, true;
      }
      if !userIdOk {
        return rotated, false;
      }
      var checked := out.Consult(false);
      device := !checked.Failed();
    }
  }
}
