/** The discipline a lifecycle operation keeps between taking and releasing the lock of
    its agent, and what every single call made under that discipline preserves. */
module Sections {
  import opened Text
  import opened Records
  import opened Stores

  /** What the operation holding the lock of `agent` has learnt and still owes.
      `loaded` is the record it last read and has not overwritten; `users` and `sessions`
      are the MAS identities it learnt from replies; `loose` are sessions it created and
      neither stored nor tried to revoke; `settled` are sessions known to be dead or to
      have had a failed revoke call. */
  datatype Section = Section(
    agent: string, loaded: Option<Record>, users: set<string>, sessions: set<string>,
    loose: set<string>, settled: set<string>)

  function Fresh(agent: string): Section {
    Section(agent, None, {}, {}, {}, {})
  }

  /** Dropping the loaded record's session from the store is safe. */
  predicate MayDrop(sec: Section) {
    sec.loaded.Some? && (sec.loaded.value.sessionId == "" || sec.loaded.value.sessionId in sec.settled)
  }

  predicate Permits(sec: Section, c: Call) {
    match c
    case GetRecord(n) => n == sec.agent
    case CreateRecord(r) => r.name == sec.agent && r.userId in sec.users && r.sessionId in sec.loose
    case UpdateRecord(r) =>
      && r.name == sec.agent && sec.loaded.Some?
      && r.version == sec.loaded.value.version
      && r.userId == sec.loaded.value.userId
      && (r.sessionId == sec.loaded.value.sessionId
          || (MayDrop(sec) && (r.sessionId == "" || r.sessionId in sec.loose)))
    case DeleteRecord(n) => n == sec.agent && MayDrop(sec)
    case LookupUser(n) => n == sec.agent
    case CreateUser(n) => n == sec.agent
    case ReactivateUser(u) => u in sec.users
    case DeactivateUser(u) => u in sec.users
    case CreateSession(u) => u in sec.users
    case ListSessions(u) => u in sec.users
    case RegenerateSession(s) => s in sec.sessions
    case RevokeSession(s) => s in sec.sessions
    case SetProfile(n, _, _) => n == sec.agent
    case Consult(_) => true
    case Now => true
  }

  /** The lock never changes hands inside an operation. */
  function Advance(sec: Section, c: Call, r: Reply): (next: Section)
    ensures next.agent == sec.agent
  {
    match c
    case GetRecord(_) =>
      if r.ARecord? then
        sec.(loaded := Some(r.record), users := sec.users + {r.record.userId},
             sessions := sec.sessions + (if r.record.sessionId == "" then {} else {r.record.sessionId}))
      else if r.NotFound? then sec.(loaded := None) else sec
    case CreateRecord(rec) => if r.Stored? then sec.(loaded := None, loose := sec.loose - {rec.sessionId}) else sec
    case UpdateRecord(rec) => if r.Stored? then sec.(loaded := None, loose := sec.loose - {rec.sessionId}) else sec
    case DeleteRecord(_) => if r.Done? then sec.(loaded := None) else sec
    case LookupUser(_) => if r.AUser? then sec.(users := sec.users + {r.id}) else sec
    case CreateUser(_) => if r.AUser? then sec.(users := sec.users + {r.id}) else sec
    case CreateSession(_) =>
      if r.ASession? then sec.(sessions := sec.sessions + {r.id}, loose := sec.loose + {r.id}) else sec
    case ListSessions(_) =>
      if r.Sessions? then
        sec.(settled := sec.settled + (sec.sessions - ListedLive(r.list)),
             sessions := sec.sessions + ListedLive(r.list))
      else sec
    case RevokeSession(s) => sec.(settled := sec.settled + {s}, loose := sec.loose - {s})
    case ReactivateUser(_) => sec
    case DeactivateUser(_) => sec
    case RegenerateSession(_) => sec
    case SetProfile(_, _, _) => sec
    case Consult(_) => sec
    case Now => sec
  }

  /** User `u` exists and carries the agent's name. */
  predicate UserOf(w: World, n: string, u: string) {
    u in w.users && w.users[u].name == n
  }

  predicate SessionOf(w: World, n: string, s: string) {
    s in w.sessions && UserOf(w, n, w.sessions[s].actor)
  }

  /** The two stores fit together. */
  ghost predicate Structured(w: World) {
    && (forall u, v | u in w.users && v in w.users && w.users[u].name == w.users[v].name :: u == v)
    && (forall s | s in w.sessions :: w.sessions[s].actor in w.users)
    && w.created <= w.sessions.Keys && w.unrevoked <= w.sessions.Keys && "" !in w.sessions && "" !in w.users
    && (forall n | n in w.records :: RecordFits(w, n, w.records[n]))
  }

  predicate RecordFits(w: World, n: string, r: Record) {
    && r.name == n && Acceptable(r, w.checks) && 1 <= r.version <= w.revision
    && UserOf(w, n, r.userId)
    && (r.sessionId != "" ==> r.sessionId in w.sessions && w.sessions[r.sessionId].actor == r.userId)
  }

  /** Everything the section believes is true of the world. In particular the record it
      loaded is still the stored one. */
  ghost predicate Owned(w: World, sec: Section) {
    && (sec.loaded.Some? ==> sec.agent in w.records && w.records[sec.agent] == sec.loaded.value)
    && (forall u | u in sec.users :: UserOf(w, sec.agent, u))
    && (forall s | s in sec.sessions :: SessionOf(w, sec.agent, s))
    && sec.loose <= sec.sessions && sec.settled <= sec.sessions
    && (forall s | s in sec.settled :: w.sessions[s].live ==> s in w.unrevoked)
  }

  predicate Holds(w: World, n: string, s: string) {
    n in w.records && w.records[n].sessionId == s
  }

  /** A live session the manager created for agent `n` is the stored session of its
      record, has a failed revoke call, or is one of `loose`. */
  ghost predicate Contained(w: World, n: string, loose: set<string>) {
    forall s | s in w.created && SessionOf(w, n, s) && w.sessions[s].live ::
      s in w.unrevoked || s in loose || Holds(w, n, s)
  }

  /** What no call undoes: users keep their names, sessions their actors, dead sessions
      stay dead and failed revokes stay recorded. */
  ghost predicate Evolves(w: World, w1: World) {
    && (forall u | u in w.users :: u in w1.users && w1.users[u].name == w.users[u].name)
    && (forall s | s in w.sessions :: s in w1.sessions && w1.sessions[s].actor == w.sessions[s].actor
          && (w1.sessions[s].live ==> w.sessions[s].live))
    && w.unrevoked <= w1.unrevoked && w.created <= w1.created
    && w.revision <= w1.revision && w1.checks == w.checks
    && w.clock <= w1.clock && TokensKept(w.tokens, w1.tokens)
  }

  lemma EvolvesOn(w: World, v: World, u: World)
    requires Evolves(w, v) && Evolves(v, u)
    ensures Evolves(w, u)
  {
  }

  lemma StepEvolves(w: World, c: Call, r: Reply)
    requires Legal(w, c, r)
    ensures Evolves(w, Effect(w, c, r))
  {
  }

  lemma StoreKeepsRecord(w: World, sec: Section, c: Call, r: Reply)
    requires Structured(w) && Owned(w, sec) && Permits(sec, c) && Legal(w, c, r) && r.Stored?
    requires c.CreateRecord? || c.UpdateRecord?
    ensures sec.agent in Effect(w, c, r).records
    ensures RecordFits(Effect(w, c, r), sec.agent, Effect(w, c, r).records[sec.agent])
  {
    hide UsersAfter; hide SessionsAfter; hide Named; hide Listing; hide IssuedAnswer;
    assert w.users == UsersAfter(w, c, r) && w.sessions == SessionsAfter(w, c, r) by { NothingElseStored(w, c, r); }
  }

  lemma NothingElseStored(w: World, c: Call, r: Reply)
    requires c.CreateRecord? || c.UpdateRecord?
    ensures UsersAfter(w, c, r) == w.users && SessionsAfter(w, c, r) == w.sessions
  {
  }

  lemma FitsOn(w: World, w1: World, n: string, r: Record)
    requires Evolves(w, w1) && RecordFits(w, n, r)
    ensures RecordFits(w1, n, r)
  {
  }

  lemma RecordStays(w: World, sec: Section, c: Call, r: Reply, n: string)
    requires Permits(sec, c) && Legal(w, c, r) && !(r.Stored? && n == sec.agent) && n in Effect(w, c, r).records
    ensures n in w.records && Effect(w, c, r).records[n] == w.records[n]
  {
    hide UsersAfter; hide SessionsAfter; hide Acceptable; hide Listing; hide IssuedAnswer;
  }

  lemma StepKeepsRecord(w: World, sec: Section, c: Call, r: Reply, n: string)
    requires Structured(w) && Owned(w, sec) && Permits(sec, c) && Legal(w, c, r)
    requires n in Effect(w, c, r).records
    ensures RecordFits(Effect(w, c, r), n, Effect(w, c, r).records[n])
  {
    hide Effect; hide Permits; hide Owned; hide RecordFits; hide Evolves;
    if r.Stored? && n == sec.agent {
      StoreKeepsRecord(w, sec, c, r);
    } else {
      StepEvolves(w, c, r);
      RecordStays(w, sec, c, r, n);
      FitsOn(w, Effect(w, c, r), n, w.records[n]);
    }
  }

  lemma StepKeepsUsers(w: World, c: Call, r: Reply, u: string, v: string)
    requires Structured(w) && Legal(w, c, r)
    requires u in Effect(w, c, r).users && v in Effect(w, c, r).users
    ensures u != ""
    ensures Effect(w, c, r).users[u].name == Effect(w, c, r).users[v].name ==> u == v
  {
    hide SessionsAfter; hide RecordsAfter; hide RecordFits; hide Listing; hide IssuedAnswer; hide UpdateAnswer;
  }

  lemma StepKeepsActor(w: World, c: Call, r: Reply, s: string)
    requires Structured(w) && Legal(w, c, r) && Evolves(w, Effect(w, c, r)) && s in Effect(w, c, r).sessions
    ensures Effect(w, c, r).sessions[s].actor in Effect(w, c, r).users && s != ""
  {
    hide UsersAfter; hide RecordsAfter; hide RecordFits; hide Acceptable;
    if s in w.sessions {
      assert w.sessions[s].actor in w.users;
    } else {
      assert c.CreateSession? && r.ASession? && r.id == s;
    }
  }

  lemma StepKeepsActors(w: World, c: Call, r: Reply)
    requires Structured(w) && Legal(w, c, r) && (c.RevokeSession? ==> c.session in w.sessions)
    ensures var w1 := Effect(w, c, r);
      && (forall s | s in w1.sessions :: w1.sessions[s].actor in w1.users) && "" !in w1.sessions
      && w1.created <= w1.sessions.Keys && w1.unrevoked <= w1.sessions.Keys
  {
    hide UsersAfter; hide RecordsAfter; hide RecordFits; hide Legal;
    StepEvolves(w, c, r);
    forall s | s in Effect(w, c, r).sessions
      ensures Effect(w, c, r).sessions[s].actor in Effect(w, c, r).users && s != ""
    {
      StepKeepsActor(w, c, r, s);
    }
  }

  /** One permitted call keeps the stores consistent. */
  lemma StepKeepsStructure(w: World, sec: Section, c: Call, r: Reply)
    requires Structured(w) && Owned(w, sec) && Permits(sec, c) && Legal(w, c, r)
    ensures Structured(Effect(w, c, r))
  {
    hide Effect; hide Legal; hide RecordFits;
    if c.RevokeSession? { assert SessionOf(w, sec.agent, c.session); }
    StepKeepsActors(w, c, r);
    forall u, v | u in Effect(w, c, r).users && v in Effect(w, c, r).users
      ensures u != "" && (Effect(w, c, r).users[u].name == Effect(w, c, r).users[v].name ==> u == v)
    {
      StepKeepsUsers(w, c, r, u, v);
    }
    forall n | n in Effect(w, c, r).records ensures RecordFits(Effect(w, c, r), n, Effect(w, c, r).records[n]) {
      StepKeepsRecord(w, sec, c, r, n);
    }
  }

  lemma StepKeepsSession(w: World, sec: Section, c: Call, r: Reply, s: string)
    requires Structured(w) && Owned(w, sec) && Permits(sec, c) && Legal(w, c, r)
    requires s in Advance(sec, c, r).sessions
    ensures SessionOf(Effect(w, c, r), sec.agent, s)
  {
    StepEvolves(w, c, r);
    if s in sec.sessions {
      assert SessionOf(w, sec.agent, s);
    } else {
      assert c.GetRecord? || c.CreateSession? || c.ListSessions?;
    }
  }

  lemma StepKeepsSettled(w: World, sec: Section, c: Call, r: Reply, s: string)
    requires Structured(w) && Owned(w, sec) && Permits(sec, c) && Legal(w, c, r)
    requires s in Advance(sec, c, r).settled
    ensures s in Advance(sec, c, r).sessions && s in Effect(w, c, r).sessions
    ensures Effect(w, c, r).sessions[s].live ==> s in Effect(w, c, r).unrevoked
  {
    StepEvolves(w, c, r);
    assert s in sec.sessions && SessionOf(w, sec.agent, s);
    if s !in sec.settled { assert c.ListSessions? || c.RevokeSession?; }
  }

  lemma StepKeepsUser(w: World, sec: Section, c: Call, r: Reply, u: string)
    requires Structured(w) && Owned(w, sec) && Permits(sec, c) && Legal(w, c, r)
    requires u in Advance(sec, c, r).users
    ensures UserOf(Effect(w, c, r), sec.agent, u)
  {
    StepEvolves(w, c, r);
  }

  lemma StepKeepsLoaded(w: World, sec: Section, c: Call, r: Reply)
    requires Structured(w) && Owned(w, sec) && Permits(sec, c) && Legal(w, c, r)
    ensures var sec1 := Advance(sec, c, r);
      sec1.loaded.Some? ==>
        sec.agent in Effect(w, c, r).records && Effect(w, c, r).records[sec.agent] == sec1.loaded.value
  {
  }

  /** One permitted call keeps what the section believes. */
  lemma StepKeepsOwnership(w: World, sec: Section, c: Call, r: Reply)
    requires Structured(w) && Owned(w, sec) && Permits(sec, c) && Legal(w, c, r)
    ensures Owned(Effect(w, c, r), Advance(sec, c, r))
  {
    var w1, sec1 := Effect(w, c, r), Advance(sec, c, r);
    StepKeepsLoaded(w, sec, c, r);
    forall u | u in sec1.users ensures UserOf(w1, sec.agent, u) { StepKeepsUser(w, sec, c, r, u); }
    assert sec1.loose <= sec1.sessions;
    forall s | s in sec1.sessions ensures SessionOf(w1, sec.agent, s) { StepKeepsSession(w, sec, c, r, s); }
    forall s | s in sec1.settled ensures s in sec1.sessions && (w1.sessions[s].live ==> s in w1.unrevoked) {
      StepKeepsSettled(w, sec, c, r, s);
    }
  }

  lemma StoreHandsOver(w: World, sec: Section, c: Call, r: Reply, s: string)
    requires (c.CreateRecord? || c.UpdateRecord?) && Permits(sec, c) && Legal(w, c, r)
    requires sec.loaded.Some? ==> Find(w.records, sec.agent) == sec.loaded
    requires s != "" && (s in sec.loose || Holds(w, sec.agent, s))
    ensures || s in Advance(sec, c, r).loose || Holds(Effect(w, c, r), sec.agent, s)
            || s in Advance(sec, c, r).settled
  {
    hide UsersAfter; hide SessionsAfter; hide Acceptable;
  }

  lemma OtherCallsHandOver(w: World, sec: Section, c: Call, r: Reply, s: string)
    requires !c.CreateRecord? && !c.UpdateRecord? && Permits(sec, c) && Legal(w, c, r)
    requires sec.loaded.Some? ==> Find(w.records, sec.agent) == sec.loaded
    requires s != "" && (s in sec.loose || Holds(w, sec.agent, s))
    ensures || s in Advance(sec, c, r).loose || Holds(Effect(w, c, r), sec.agent, s)
            || s in Advance(sec, c, r).settled
  {
    hide UsersAfter; hide SessionsAfter; hide Acceptable; hide UpdateAnswer; hide IssuedAnswer; hide Listing;
    hide Named;
  }

  /** A session leaves the record only when it is settled, and leaves `loose` only into
      the record or through a revoke call. */
  lemma StepHandsOver(w: World, sec: Section, c: Call, r: Reply, s: string)
    requires Permits(sec, c) && Legal(w, c, r)
    requires sec.loaded.Some? ==> Find(w.records, sec.agent) == sec.loaded
    requires s != "" && (s in sec.loose || Holds(w, sec.agent, s))
    ensures || s in Advance(sec, c, r).loose || Holds(Effect(w, c, r), sec.agent, s)
            || s in Advance(sec, c, r).settled
  {
    hide Permits; hide Legal; hide Advance; hide Effect; hide Holds;
    if c.CreateRecord? || c.UpdateRecord? {
      StoreHandsOver(w, sec, c, r, s);
    } else {
      OtherCallsHandOver(w, sec, c, r, s);
    }
  }

  /** One permitted call keeps every session of the agent accounted for. */
  lemma StepKeepsContainment(w: World, sec: Section, c: Call, r: Reply)
    requires Structured(w) && Owned(w, sec) && Permits(sec, c) && Legal(w, c, r)
    requires Contained(w, sec.agent, sec.loose)
    ensures Contained(Effect(w, c, r), sec.agent, Advance(sec, c, r).loose)
  {
    var w1, sec1 := Effect(w, c, r), Advance(sec, c, r);
    StepEvolves(w, c, r);
    forall s | s in w1.created && SessionOf(w1, sec.agent, s) && w1.sessions[s].live
      ensures s in w1.unrevoked || s in sec1.loose || Holds(w1, sec.agent, s)
    {
      if s in w.created {
        assert SessionOf(w, sec.agent, s);
        if s !in w.unrevoked {
          StepHandsOver(w, sec, c, r, s);
          if s in sec1.settled { StepKeepsSettled(w, sec, c, r, s); }
        }
      }
    }
  }
}
