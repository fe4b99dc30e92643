/** What a call made for one agent leaves alone: everything of every other agent. */
module Locality {
  import opened Text
  import opened Records
  import opened Stores
  import opened Sections

  /** The agent's users, sessions, record and profile are the same in both worlds. */
  ghost predicate SameAgent(w: World, v: World, n: string) {
    && (forall u :: UserOf(w, n, u) <==> UserOf(v, n, u))
    && (forall u | UserOf(w, n, u) :: w.users[u] == v.users[u])
    && (forall s :: SessionOf(w, n, s) <==> SessionOf(v, n, s))
    && (forall s | SessionOf(w, n, s) :: w.sessions[s] == v.sessions[s]
          && (s in w.created <==> s in v.created) && (s in w.unrevoked <==> s in v.unrevoked))
    && Find(w.records, n) == Find(v.records, n)
    && Shown(w.profiles, n) == Shown(v.profiles, n)
  }

  lemma UserIsLocal(w: World, sec: Section, c: Call, r: Reply, n: string, u: string)
    requires Owned(w, sec) && Permits(sec, c) && Legal(w, c, r) && n != sec.agent
    ensures UserOf(w, n, u) <==> UserOf(Effect(w, c, r), n, u)
    ensures UserOf(w, n, u) ==> w.users[u] == Effect(w, c, r).users[u]
  {
    if c.ReactivateUser? || c.DeactivateUser? { assert UserOf(w, sec.agent, c.user); }
  }

  lemma SessionIsLocal(w: World, sec: Section, c: Call, r: Reply, n: string, s: string)
    requires Structured(w) && Owned(w, sec) && Permits(sec, c) && Legal(w, c, r) && n != sec.agent
    ensures var v := Effect(w, c, r);
      && (SessionOf(w, n, s) <==> SessionOf(v, n, s))
      && (SessionOf(w, n, s) ==> w.sessions[s] == v.sessions[s])
      && (SessionOf(w, n, s) ==> (s in w.created <==> s in v.created) && (s in w.unrevoked <==> s in v.unrevoked))
  {
    hide RecordsAfter; hide UsersAfter; hide RecordFits; hide UpdateAnswer; hide Listing; hide Named;
    if s in w.sessions { UserIsLocal(w, sec, c, r, n, w.sessions[s].actor); }
    if c.CreateSession? {
      assert UserOf(w, sec.agent, c.user);
      UserIsLocal(w, sec, c, r, n, c.user);
    }
    if c.RegenerateSession? || c.RevokeSession? { assert SessionOf(w, sec.agent, c.session); }
  }

  /** A permitted call touches the user, sessions, record and profile of its own agent only. */
  lemma StepIsLocal(w: World, sec: Section, c: Call, r: Reply, n: string)
    requires Structured(w) && Owned(w, sec) && Permits(sec, c) && Legal(w, c, r) && n != sec.agent
    ensures SameAgent(w, Effect(w, c, r), n)
  {
    forall u { UserIsLocal(w, sec, c, r, n, u); }
    forall s { SessionIsLocal(w, sec, c, r, n, s); }
  }

  lemma OthersKeepOwnership(w: World, v: World, sec: Section)
    requires SameAgent(w, v, sec.agent) && Owned(w, sec)
    ensures Owned(v, sec)
  {
    assert sec.loaded.Some? ==> Find(w.records, sec.agent) == sec.loaded;
  }

  lemma OthersKeepContainment(w: World, v: World, n: string, loose: set<string>)
    requires SameAgent(w, v, n) && Contained(w, n, loose)
    ensures Contained(v, n, loose)
  {
    forall s | s in v.created && SessionOf(v, n, s) && v.sessions[s].live
      ensures s in v.unrevoked || s in loose || Holds(v, n, s)
    {
      assert SessionOf(w, n, s);
      assert Holds(w, n, s) ==> Find(w.records, n) == Some(w.records[n]);
    }
  }

  lemma SameAgentVia(w: World, w1: World, v: World, n: string)
    requires SameAgent(w, w1, n) && SameAgent(w, v, n)
    ensures SameAgent(w1, v, n)
  {
    forall u ensures UserOf(w1, n, u) <==> UserOf(v, n, u)
             ensures UserOf(w1, n, u) ==> w1.users[u] == v.users[u]
    {
      assert UserOf(w, n, u) <==> UserOf(w1, n, u);
    }
    forall s ensures SessionOf(w1, n, s) <==> SessionOf(v, n, s)
      ensures SessionOf(w1, n, s) ==> w1.sessions[s] == v.sessions[s]
      ensures SessionOf(w1, n, s) ==> (s in w1.created <==> s in v.created) && (s in w1.unrevoked <==> s in v.unrevoked)
    {
      assert SessionOf(w, n, s) <==> SessionOf(w1, n, s);
    }
  }

  lemma SameLiveSessions(w: World, v: World, n: string, u: string)
    requires SameAgent(w, v, n) && UserOf(w, n, u)
    ensures LiveSessions(w.sessions, u) == LiveSessions(v.sessions, u)
  {
    forall s ensures s in LiveSessions(w.sessions, u) <==> s in LiveSessions(v.sessions, u) {
      assert SessionOf(w, n, s) <==> SessionOf(v, n, s);
    }
  }

  lemma SameAgentBack(w: World, v: World, n: string)
    requires SameAgent(w, v, n)
    ensures SameAgent(v, w, n)
  {
    SameAgentItself(w, n);
    SameAgentVia(w, v, w, n);
  }

  lemma SameAgentItself(w: World, n: string)
    ensures SameAgent(w, w, n)
  {
  }

  lemma SameAgentOn(w: World, v: World, u: World, n: string)
    requires SameAgent(w, v, n) && SameAgent(v, u, n)
    ensures SameAgent(w, u, n)
  {
    hide SameAgent;
    SameAgentBack(w, v, n);
    SameAgentVia(v, w, u, n);
  }

  /** What happened between the two worlds was all for agent `n`. */
  ghost predicate OnlyAgent(w: World, v: World, n: string) {
    Evolves(w, v) && forall m | m != n :: SameAgent(w, v, m)
  }

  lemma OnlyAgentItself(w: World, n: string)
    ensures OnlyAgent(w, w, n)
  {
    hide SameAgent;
    forall m { SameAgentItself(w, m); }
  }

  lemma OnlyAgentStep(w: World, v: World, sec: Section, c: Call, r: Reply)
    requires Structured(v) && Owned(v, sec) && Permits(sec, c) && Legal(v, c, r) && OnlyAgent(w, v, sec.agent)
    ensures OnlyAgent(w, Effect(v, c, r), sec.agent)
  {
    hide SameAgent; hide Structured; hide Owned; hide Permits; hide Legal; hide Effect; hide Evolves;
    StepEvolves(v, c, r);
    EvolvesOn(w, v, Effect(v, c, r));
    forall m | m != sec.agent ensures SameAgent(w, Effect(v, c, r), m) {
      StepIsLocal(v, sec, c, r, m);
      SameAgentOn(w, v, Effect(v, c, r), m);
    }
  }
}
