/** The two stores the manager drives, MAS and the record Secrets, as one value, and the
    contract of every remote call on them. Any remote call may fail cleanly (`Fault`). */
module Stores {
  import opened Text
  import opened Records

  datatype User = User(name: string, deactivated: bool, locked: bool)
  datatype Session = Session(actor: string, live: bool, token: string, issuedAt: int)
  datatype Listed = Listed(id: string, revoked: bool)
  datatype Profile = Profile(displayName: string, avatarUrl: string)
  datatype Field = DisplayName | AvatarUrl

  /** `tokens` are the access tokens ever issued, with the time of issue.
      `profiles` are the homeserver profiles by agent name.
      `created`, `unrevoked`, `faults` and `undone` are history: the sessions made by the
      manager, those with a failed revoke call, the number of faulty replies, and the
      number of failed revoke and deactivate calls. */
  datatype World = World(
    users: map<string, User>, sessions: map<string, Session>, records: map<string, Record>,
    tokens: map<string, int>, revision: nat, clock: int, checks: Checks,
    profiles: map<string, Profile>,
    created: set<string>, unrevoked: set<string>, faults: nat, undone: nat)

  datatype Call =
    | GetRecord(name: string)
    | CreateRecord(record: Record)
    | UpdateRecord(record: Record)
    | DeleteRecord(name: string)
    | LookupUser(name: string)
    | CreateUser(name: string)
    | ReactivateUser(user: string)
    | DeactivateUser(user: string)
    | CreateSession(user: string)
    | RegenerateSession(session: string)
    | ListSessions(user: string)
    | RevokeSession(session: string)
    | SetProfile(name: string, field: Field, text: string)
    | Consult(upload: bool)
    | Now

  datatype Reply =
    | Fault | NotFound | Refused | Conflict
    | Done
    | Stored(version: nat)
    | ARecord(record: Record)
    | AUser(id: string, user: User)
    | ASession(id: string, token: string, at: int)
    | Sessions(list: seq<Listed>)
    | Url(text: string)
    | Time(at: int)
  {
    predicate Failed() { Fault? || NotFound? || Refused? || Conflict? }
  }

  /** The profile of an agent, empty unless set. */
  function Shown(profiles: map<string, Profile>, n: string): Profile {
    if n in profiles then profiles[n] else Profile("", "")
  }

  function WithField(p: Profile, field: Field, text: string): Profile {
    if field.DisplayName? then p.(displayName := text) else p.(avatarUrl := text)
  }

  predicate Named(w: World, name: string) {
    exists u :: u in w.users && w.users[u].name == name
  }

  function LiveSessions(sessions: map<string, Session>, user: string): set<string> {
    set s | s in sessions && sessions[s].actor == user && sessions[s].live
  }

  /** The entries the revocation loop acts on: named and not marked revoked. */
  function ListedLive(list: seq<Listed>): set<string> {
    set i | 0 <= i < |list| && list[i].id != "" && !list[i].revoked :: list[i].id
  }

  predicate Distinct(list: seq<Listed>) {
    forall i, j | 0 <= i < j < |list| && list[i].id != "" :: list[i].id != list[j].id
  }

  predicate Usable(w: World, user: string) {
    user in w.users && !w.users[user].deactivated && !w.users[user].locked
  }

  /** Compare-and-set on the record version, as the backend decides it. */
  predicate UpdateAnswer(stored: Option<nat>, r: Record, checks: Checks, revision: nat, reply: Reply) {
    if stored.None? then reply.NotFound?
    else if r.version != 0 && r.version != stored.value then reply.Conflict?
    else if !Acceptable(r, checks) then reply.Refused?
    else reply.Stored? && reply.version > revision
  }

  predicate Listing(w: World, user: string, list: seq<Listed>) {
    Distinct(list) && ListedLive(list) == LiveSessions(w.sessions, user)
  }

  /** Session tokens and IDs are fresh; the token may be missing from the reply. */
  predicate IssuedAnswer(w: World, user: string, r: Reply) {
    || (r.Refused? && !Usable(w, user))
    || (r.ASession? && r.id != "" && r.token !in w.tokens && r.at >= w.clock)
  }

  /** The replies a call can get in world `w`. */
  predicate Legal(w: World, c: Call, r: Reply) {
    if r.Fault? then !c.Now? else
    match c
    case GetRecord(n) => if n in w.records then r == ARecord(w.records[n]) else r.NotFound?
    case CreateRecord(rec) =>
      if rec.name in w.records || !Acceptable(rec, w.checks) then r.Refused?
      else r.Stored? && r.version > w.revision
    case UpdateRecord(rec) =>
      var stored := if rec.name in w.records then Some(w.records[rec.name].version) else None;
      UpdateAnswer(stored, rec, w.checks, w.revision, r)
    case DeleteRecord(n) => if n in w.records then r.Done? else r.NotFound?
    case LookupUser(n) =>
      if Named(w, n) then r.AUser? && r.id in w.users && w.users[r.id] == r.user && r.user.name == n
      else r.NotFound?
    case CreateUser(n) =>
      if Named(w, n) then r.Refused?
      else r.AUser? && r.id !in w.users && r.id != "" && r.user == User(n, false, false)
    case ReactivateUser(u) =>
      if u in w.users then r == AUser(u, w.users[u].(deactivated := false)) else r.NotFound?
    case DeactivateUser(u) => if u in w.users then r.Done? else r.NotFound?
    case CreateSession(u) =>
      if u !in w.users then r.NotFound? else IssuedAnswer(w, u, r) && (r.ASession? ==> r.id !in w.sessions)
    case RegenerateSession(s) =>
      if s !in w.sessions then r.NotFound?
      else if !w.sessions[s].live then r.Refused?
      else IssuedAnswer(w, w.sessions[s].actor, r) && (r.ASession? ==> r.id == s)
    case ListSessions(u) => r.Sessions? && Listing(w, u, r.list)
    case RevokeSession(s) =>
      if s !in w.sessions then r.NotFound? else if !w.sessions[s].live then r.Refused? else r.Done?
    case SetProfile(_, _, _) => r.Done?
    case Consult(upload) => if upload then r.Url? else r.Done?
    case Now => r.Time? && r.at >= w.clock
  }

  function UsersAfter(w: World, c: Call, r: Reply): map<string, User> {
    match c
    case CreateUser(_) => if r.AUser? then w.users[r.id := r.user] else w.users
    case ReactivateUser(u) => if r.AUser? then w.users[u := r.user] else w.users
    case DeactivateUser(u) =>
      if r.Done? && u in w.users then w.users[u := w.users[u].(deactivated := true)] else w.users
    case _ => w.users
  }

  function SessionsAfter(w: World, c: Call, r: Reply): map<string, Session> {
    match c
    case CreateSession(u) =>
      if r.ASession? then w.sessions[r.id := Session(u, true, r.token, r.at)] else w.sessions
    case RegenerateSession(s) =>
      if r.ASession? && s in w.sessions then w.sessions[s := w.sessions[s].(token := r.token, issuedAt := r.at)]
      else w.sessions
    case RevokeSession(s) =>
      if r.Done? && s in w.sessions then w.sessions[s := w.sessions[s].(live := false)] else w.sessions
    case _ => w.sessions
  }

  function RecordsAfter(w: World, c: Call, r: Reply): map<string, Record> {
    match c
    case CreateRecord(rec) => if r.Stored? then w.records[rec.name := rec.(version := r.version)] else w.records
    case UpdateRecord(rec) => if r.Stored? then w.records[rec.name := rec.(version := r.version)] else w.records
    case DeleteRecord(n) => if r.Done? then w.records - {n} else w.records
    case _ => w.records
  }

  /** A fault, or a session reply that lacks its token. */
  predicate Faulty(r: Reply) {
    r.Fault? || (r.ASession? && r.token == "")
  }

  /** The world after one call got the reply. A failed call changes no store. */
  function Effect(w: World, c: Call, r: Reply): World {
    World(
      UsersAfter(w, c, r), SessionsAfter(w, c, r), RecordsAfter(w, c, r),
      if r.ASession? && r.token != "" then w.tokens[r.token := r.at] else w.tokens,
      if r.Stored? then r.version else w.revision,
      if r.ASession? || r.Time? then r.at else w.clock,
      w.checks,
      if c.SetProfile? && r.Done? then w.profiles[c.name := WithField(Shown(w.profiles, c.name), c.field, c.text)]
      else w.profiles,
      if c.CreateSession? && r.ASession? then w.created + {r.id} else w.created,
      if c.RevokeSession? && r.Failed() then w.unrevoked + {c.session} else w.unrevoked,
      if Faulty(r) then w.faults + 1 else w.faults,
      if (c.RevokeSession? || c.DeactivateUser?) && r.Failed() then w.undone + 1 else w.undone)
  }
}
