/** The MAS client and the Secret backend as one object, used under the discipline of a
    critical section. Each method is one remote call; its contract is the call's effect. */
module Clients {
  import opened Text
  import opened Records
  import opened Stores
  import opened Sections
  import opened Locality

  /** Nothing but the record of agent `n` changed in the record store. */
  predicate OnlyRecord(w0: World, w1: World, n: string) {
    w1.records - {n} == w0.records - {n}
  }

  /** The live sessions of a user follow from the calls on sessions alone. */
  lemma LiveAfter(w: World, c: Call, r: Reply, u: string)
    requires Legal(w, c, r)
    ensures LiveSessions(Effect(w, c, r).sessions, u) ==
      if c.CreateSession? && r.ASession? && c.user == u then LiveSessions(w.sessions, u) + {r.id}
      else if c.RevokeSession? && r.Done? then LiveSessions(w.sessions, u) - {c.session}
      else LiveSessions(w.sessions, u)
  {
    var w1 := Effect(w, c, r);
    forall s ensures s in LiveSessions(w1.sessions, u) <==>
        s in if c.CreateSession? && r.ASession? && c.user == u then LiveSessions(w.sessions, u) + {r.id}
             else if c.RevokeSession? && r.Done? then LiveSessions(w.sessions, u) - {c.session}
             else LiveSessions(w.sessions, u)
    {
    }
  }

  lemma OwnedUser(w: World, sec: Section, u: string)
    requires Owned(w, sec) && u in sec.users
    ensures UserOf(w, sec.agent, u)
  {
  }

  lemma OwnedSession(w: World, sec: Section, s: string)
    requires Owned(w, sec) && s in sec.sessions
    ensures SessionOf(w, sec.agent, s)
  {
  }

  class Clients {
    var w: World
    ghost var section: Section
    /** The world when the section began. */
    ghost var start: World

    ghost predicate Valid()
      reads this
    {
      && Structured(w) && Owned(w, section) && Contained(w, section.agent, section.loose)
      && OnlyAgent(start, w, section.agent)
    }

    /** An operation on agent `n` is about to make its first call. */
    ghost predicate Begun(n: string)
      reads this
    {
      Valid() && section == Fresh(n) && start == w
    }

    /** No operation is running: every session is accounted for. */
    ghost predicate Idle()
      reads this
    {
      Structured(w) && forall m :: Contained(w, m, {})
    }

    constructor (w: World)
      requires Structured(w) && forall m :: Contained(w, m, {})
      ensures Idle() && this.w == w
    {
      this.w, section, start := w, Fresh(""), w;
    }

    /** An operation on agent `n` begins: what the caller of withAgentLock may rely on. */
    ghost method Begin(n: string)
      requires Idle()
      modifies `section, `start
      ensures Begun(n) && w == old(w)
    {
      section, start := Fresh(n), w;
      OnlyAgentItself(w, n);
    }

    /** An operation that owes nothing leaves no operation running. */
    lemma EndsIdle()
      requires Valid() && section.loose == {} && forall m :: Contained(start, m, {})
      ensures Idle()
    {
      hide SameAgent; hide Contained;
      forall m ensures Contained(w, m, {}) {
        if m != section.agent { OthersKeepContainment(start, w, m, {}); }
      }
    }

    method Ask(c: Call) returns (r: Reply)
      requires Valid() && Permits(section, c)
      modifies `w, `section
      ensures Valid() && Legal(old(w), c, r)
      ensures w == Effect(old(w), c, r) && section == Advance(old(section), c, r)
    {
      r := *;
      if !Legal(w, c, r) {
        r := if c.Now? then Time(w.clock) else Fault;
      }
      StepKeepsStructure(w, section, c, r);
      StepKeepsOwnership(w, section, c, r);
      StepKeepsContainment(w, section, c, r);
      OnlyAgentStep(start, w, section, c, r);
      w, section := Effect(w, c, r), Advance(section, c, r);
    }

    method ReadClock() returns (at: int)
      requires Valid()
      modifies `w, `section
      ensures Valid() && section == old(section)
      ensures w == old(w).(clock := at) && at >= old(w).clock
    {
      var r := Ask(Now);
      at := r.at;
    }

    method GetAgent(n: string) returns (r: Reply)
      requires Valid() && section.agent == n
      modifies `w, `section
      ensures Valid() && section == Advance(old(section), GetRecord(n), r)
      ensures w == old(w).(faults := w.faults) && w.faults == old(w).faults + (if r.Fault? then 1 else 0)
      ensures r.Fault? || (r.NotFound? && n !in w.records)
              || (r.ARecord? && n in w.records && r.record == w.records[n] && RecordFits(w, n, r.record))
      ensures "" !in w.sessions
    {
      r := Ask(GetRecord(n));
    }

    method CreateAgent(rec: Record) returns (r: Reply)
      requires Valid() && Permits(section, CreateRecord(rec))
      modifies `w, `section
      ensures Valid() && section == Advance(old(section), CreateRecord(rec), r)
      ensures w == old(w).(records := w.records, revision := w.revision, faults := w.faults)
      ensures w.faults == old(w).faults + (if r.Fault? then 1 else 0)
      ensures r.Fault? || (r.Refused? && (rec.name in w.records || !Acceptable(rec, w.checks)))
              || (r.Stored? && rec.name !in old(w).records && Acceptable(rec, w.checks))
      ensures !r.Stored? ==> w.records == old(w).records
      ensures r.Stored? ==> w.records == old(w).records[rec.name := rec.(version := r.version)]
      ensures OnlyRecord(old(w), w, rec.name)
    {
      hide Structured; hide Contained; hide OnlyAgent;
      r := Ask(CreateRecord(rec));
    }

    method UpdateAgent(rec: Record) returns (r: Reply)
      requires Valid() && Permits(section, UpdateRecord(rec))
      modifies `w, `section
      ensures Valid() && section == Advance(old(section), UpdateRecord(rec), r)
      ensures w == old(w).(records := w.records, revision := w.revision, faults := w.faults)
      ensures w.faults == old(w).faults + (if r.Fault? then 1 else 0)
      ensures r.Fault? || (r.Refused? && !Acceptable(rec, w.checks)) || r.Stored?
      ensures !r.Stored? ==> w.records == old(w).records
      ensures r.Stored? ==> w.records == old(w).records[rec.name := rec.(version := r.version)]
      ensures OnlyRecord(old(w), w, rec.name)
    {
      hide Structured; hide Contained; hide OnlyAgent;
      r := Ask(UpdateRecord(rec));
    }

    method DeleteAgent(n: string) returns (r: Reply)
      requires Valid() && Permits(section, DeleteRecord(n))
      modifies `w, `section
      ensures Valid() && section == Advance(old(section), DeleteRecord(n), r)
      ensures w == old(w).(records := w.records, faults := w.faults)
      ensures w.faults == old(w).faults + (if r.Fault? then 1 else 0)
      ensures r.Fault? || r.Done?
      ensures w.records == if r.Done? then old(w).records - {n} else old(w).records
      ensures OnlyRecord(old(w), w, n)
    {
      hide Structured; hide Contained; hide OnlyAgent;
      r := Ask(DeleteRecord(n));
    }

    method CreatePersonalSession(u: string) returns (r: Reply)
      requires Valid() && u in section.users
      modifies `w, `section
      ensures Valid() && section == Advance(old(section), CreateSession(u), r)
      ensures w == old(w).(sessions := w.sessions, tokens := w.tokens, clock := w.clock, created := w.created,
        faults := w.faults)
      ensures w.faults == old(w).faults + (if Faulty(r) then 1 else 0)
      ensures r.Fault? || (r.Refused? && !Usable(w, u)) || (r.ASession? && r.id != "" && r.id !in old(w).sessions)
      ensures r.ASession? ==>
        w.sessions == old(w).sessions[r.id := Session(u, true, r.token, r.at)] && w.clock == r.at >= old(w).clock
      ensures r.ASession? && r.token != "" ==> w.tokens == old(w).tokens[r.token := r.at] && r.token !in old(w).tokens
      ensures !r.ASession? ==> w == old(w).(faults := w.faults)
      ensures r.ASession? ==> w.created == old(w).created + {r.id}
      ensures forall v ::
        LiveSessions(w.sessions, v) ==
          LiveSessions(old(w).sessions, v) + (if r.ASession? && v == u then {r.id} else {})
    {
      hide Structured; hide Contained; hide Owned; hide OnlyAgent;
      OwnedUser(w, section, u);
      r := Ask(CreateSession(u));
      forall v { LiveAfter(old(w), CreateSession(u), r, v); }
    }

    method RegeneratePersonalSession(s: string) returns (r: Reply)
      requires Valid() && s in section.sessions
      modifies `w, `section
      ensures Valid() && section == old(section) && s in old(w).sessions
      ensures w == old(w).(sessions := w.sessions, tokens := w.tokens, clock := w.clock, faults := w.faults)
      ensures w.faults == old(w).faults + (if Faulty(r) then 1 else 0)
      ensures r.Fault? || (r.Refused? && !(old(w).sessions[s].live && Usable(w, old(w).sessions[s].actor)))
              || (r.ASession? && r.id == s && old(w).sessions[s].live)
      ensures r.ASession? ==>
        w.sessions == old(w).sessions[s := old(w).sessions[s].(token := r.token, issuedAt := r.at)]
                              && w.clock == r.at >= old(w).clock
      ensures r.ASession? && r.token != "" ==> w.tokens == old(w).tokens[r.token := r.at] && r.token !in old(w).tokens
      ensures !r.ASession? ==> w == old(w).(faults := w.faults)
      ensures forall v :: LiveSessions(w.sessions, v) == LiveSessions(old(w).sessions, v)
    {
      hide Structured; hide Contained; hide Owned; hide OnlyAgent;
      OwnedSession(w, section, s);
      r := Ask(RegenerateSession(s));
      forall v { LiveAfter(old(w), RegenerateSession(s), r, v); }
    }

    method RevokePersonalSession(s: string) returns (r: Reply)
      requires Valid() && s in section.sessions
      modifies `w, `section
      ensures Valid() && section == Advance(old(section), RevokeSession(s), r)
      ensures w == old(w).(sessions := w.sessions, unrevoked := w.unrevoked, faults := w.faults, undone := w.undone)
      ensures w.faults == old(w).faults + (if r.Fault? then 1 else 0)
      ensures w.undone == old(w).undone + (if r.Failed() then 1 else 0)
      ensures s in old(w).sessions
      ensures r.Fault? || (r.Refused? && !old(w).sessions[s].live) || (r.Done? && old(w).sessions[s].live)
      ensures w.sessions ==
        if r.Done? then old(w).sessions[s := old(w).sessions[s].(live := false)] else old(w).sessions
      ensures forall v ::
        LiveSessions(w.sessions, v) ==
          LiveSessions(old(w).sessions, v) - (if r.Done? then {s} else {})
    {
      hide Structured; hide Contained; hide Owned; hide OnlyAgent;
      OwnedSession(w, section, s);
      r := Ask(RevokeSession(s));
      forall v { LiveAfter(old(w), RevokeSession(s), r, v); }
    }

    method ListPersonalSessions(u: string) returns (r: Reply)
      requires Valid() && u in section.users
      modifies `w, `section
      ensures Valid() && section == Advance(old(section), ListSessions(u), r)
      ensures w == old(w).(faults := w.faults) && w.faults == old(w).faults + (if r.Fault? then 1 else 0)
      ensures r.Fault? || (r.Sessions? && Listing(w, u, r.list))
    {
      r := Ask(ListSessions(u));
    }

    method GetUserByUsername(n: string) returns (r: Reply)
      requires Valid() && section.agent == n
      modifies `w, `section
      ensures Valid() && section == Advance(old(section), LookupUser(n), r)
      ensures w == old(w).(faults := w.faults) && w.faults == old(w).faults + (if r.Fault? then 1 else 0)
      ensures
        || r.Fault?
        || (r.NotFound? && !Named(w, n))
        || (r.AUser? && r.id != "" && UserOf(w, n, r.id) && r.user == w.users[r.id])
    {
      r := Ask(LookupUser(n));
    }

    method CreateUser(n: string) returns (r: Reply)
      requires Valid() && section.agent == n
      modifies `w, `section
      ensures Valid() && section == Advance(old(section), Call.CreateUser(n), r)
      ensures w == old(w).(users := w.users, faults := w.faults)
      ensures w.faults == old(w).faults + (if r.Fault? then 1 else 0)
      ensures r.Fault? || (r.Refused? && Named(w, n)) || (r.AUser? && r.id != "" && r.id !in old(w).users)
      ensures w.users == if r.AUser? then old(w).users[r.id := User(n, false, false)] else old(w).users
    {
      r := Ask(Call.CreateUser(n));
    }

    method ReactivateUser(u: string) returns (r: Reply)
      requires Valid() && u in section.users
      modifies `w, `section
      ensures Valid() && section == old(section)
      ensures w == old(w).(users := w.users, faults := w.faults)
      ensures w.faults == old(w).faults + (if r.Fault? then 1 else 0)
      ensures u in old(w).users && (r.Fault? || (r.AUser? && r.id == u))
      ensures w.users == if r.AUser? then old(w).users[u := old(w).users[u].(deactivated := false)] else old(w).users
    {
      hide Structured; hide Contained; hide Owned; hide OnlyAgent;
      OwnedUser(w, section, u);
      r := Ask(Call.ReactivateUser(u));
    }

    /** mas.Client.DeactivateUser, and DeleteUser, which makes the same request. */
    method DeactivateUser(u: string) returns (r: Reply)
      requires Valid() && u in section.users
      modifies `w, `section
      ensures Valid() && section == old(section)
      ensures w == old(w).(users := w.users, faults := w.faults, undone := w.undone)
      ensures w.faults == old(w).faults + (if r.Fault? then 1 else 0)
      ensures w.undone == old(w).undone + (if r.Failed() then 1 else 0)
      ensures u in old(w).users && (r.Fault? || r.Done?)
      ensures w.users == if r.Done? then old(w).users[u := old(w).users[u].(deactivated := true)] else old(w).users
    {
      hide Structured; hide Contained; hide Owned; hide OnlyAgent;
      OwnedUser(w, section, u);
      r := Ask(Call.DeactivateUser(u));
    }

    /** matrix.ProfileClient.SetDisplayName and SetAvatarURL. */
    method SetProfile(n: string, field: Field, text: string) returns (r: Reply)
      requires Valid() && section.agent == n
      modifies `w, `section
      ensures Valid() && section == old(section) && (r.Fault? || r.Done?)
      ensures w == old(w).(profiles := w.profiles, faults := w.faults)
      ensures w.faults == old(w).faults + (if r.Fault? then 1 else 0)
      ensures w.profiles ==
        if r.Done? then old(w).profiles[n := WithField(Shown(old(w).profiles, n), field, text)] else old(w).profiles
    {
      r := Ask(Call.SetProfile(n, field, text));
    }

    /** An avatar upload or a device check: they change nothing that is modelled. */
    method Consult(upload: bool) returns (r: Reply)
      requires Valid()
      modifies `w, `section
      ensures Valid() && section == old(section)
      ensures w == old(w).(faults := w.faults) && w.faults == old(w).faults + (if r.Fault? then 1 else 0)
      ensures r.Fault? || (if upload then r.Url? else r.Done?)
    {
      r := Ask(Call.Consult(upload));
    }
  }
}
