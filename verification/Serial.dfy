/** Every interleaving is serial for each agent: its operations take turns, and its calls,
    replayed alone in that order, are legal and leave the agent in the same state. */
module Serial {
  import opened Text
  import opened Records
  import opened Stores
  import opened Sections
  import opened Locality
  import opened Locks

  /** The thread whose turn it is at agent `n` after the labels. */
  function Turn(ls: seq<Label>, n: string): Option<nat> {
    if ls == [] then None else
    match ls[|ls| - 1]
    case Lock(t, a) => if a == n then Some(t) else Turn(ls[..|ls| - 1], n)
    case Unlock(_, a) => if a == n then None else Turn(ls[..|ls| - 1], n)
    case _ => Turn(ls[..|ls| - 1], n)
  }

  /** The world after the calls of agent `n` alone. */
  function Solo(w: World, ls: seq<Label>, n: string): World {
    if ls == [] then w else
    var before := Solo(w, ls[..|ls| - 1], n);
    var l := ls[|ls| - 1];
    if l.Step? && l.n == n then Effect(before, l.c, l.r) else before
  }

  /** `v` has agent `n` just as `w` does, and everything else of `v` is older. */
  ghost predicate Mirrors(w: World, v: World, n: string) {
    && SameAgent(w, v, n)
    && v.tokens.Keys <= w.tokens.Keys && v.clock <= w.clock && v.revision <= w.revision && v.checks == w.checks
    && v.users.Keys <= w.users.Keys && v.sessions.Keys <= w.sessions.Keys
  }

  lemma MirrorName(w: World, v: World, n: string)
    requires Mirrors(w, v, n)
    ensures Named(w, n) <==> Named(v, n)
  {
    if Named(w, n) {
      var u :| u in w.users && w.users[u].name == n;
      assert UserOf(w, n, u) && UserOf(v, n, u);
    }
    if Named(v, n) {
      var u :| u in v.users && v.users[u].name == n;
      assert UserOf(v, n, u) && UserOf(w, n, u);
    }
  }

  /** A reply that is legal in the crowd is legal in the replay. */
  lemma MirrorLegal(w: World, v: World, sec: Section, c: Call, r: Reply)
    requires Mirrors(w, v, sec.agent) && Owned(w, sec) && Permits(sec, c) && Legal(w, c, r)
    ensures Legal(v, c, r)
  {
    var n := sec.agent;
    match c
    case GetRecord(_) => assert Find(w.records, n) == Find(v.records, n);
    case CreateRecord(rec) => assert Find(w.records, n) == Find(v.records, n);
    case DeleteRecord(_) => assert Find(w.records, n) == Find(v.records, n);
    case UpdateRecord(rec) => assert Find(w.records, n) == Find(v.records, n);
    case LookupUser(_) =>
      MirrorName(w, v, n);
      if r.AUser? { assert UserOf(w, n, r.id); }
    case CreateUser(_) => MirrorName(w, v, n);
    case ReactivateUser(u) => assert UserOf(w, n, u);
    case DeactivateUser(u) => assert UserOf(w, n, u);
    case CreateSession(u) => assert UserOf(w, n, u);
    case ListSessions(u) => SameLiveSessions(w, v, n, u);
    case RegenerateSession(s) => assert SessionOf(w, n, s) && UserOf(w, n, w.sessions[s].actor);
    case RevokeSession(s) => assert SessionOf(w, n, s);
    case _ =>
  }

  lemma MirrorUser(w: World, v: World, n: string, c: Call, r: Reply, u: string)
    requires UserOf(w, n, u) <==> UserOf(v, n, u)
    requires UserOf(w, n, u) ==> w.users[u] == v.users[u]
    requires c.DeactivateUser? ==> UserOf(w, n, c.user) && UserOf(v, n, c.user)
    ensures UserOf(Effect(w, c, r), n, u) <==> UserOf(Effect(v, c, r), n, u)
    ensures UserOf(Effect(w, c, r), n, u) ==> Effect(w, c, r).users[u] == Effect(v, c, r).users[u]
  {
  }

  lemma SessionAfter(w: World, n: string, c: Call, r: Reply, s: string)
    requires Structured(w) && Legal(w, c, r) && (c.CreateSession? ==> UserOf(w, n, c.user))
    ensures SessionOf(Effect(w, c, r), n, s) <==> SessionOf(w, n, s) || (c.CreateSession? && r.ASession? && s == r.id)
    ensures SessionOf(w, n, s) ==> !(c.CreateSession? && r.ASession? && s == r.id)
    ensures c.CreateSession? && r.ASession? ==> r.id !in w.created && r.id !in w.unrevoked
  {
    StepEvolves(w, c, r);
    if s in w.sessions { assert w.sessions[s].actor in w.users; }
  }

  lemma MirrorSession(w: World, v: World, n: string, c: Call, r: Reply, s: string)
    requires SameAgent(w, v, n) && Structured(w) && Structured(v) && Legal(w, c, r) && Legal(v, c, r)
    requires c.CreateSession? ==> UserOf(w, n, c.user)
    requires c.RegenerateSession? || c.RevokeSession? ==> SessionOf(w, n, c.session)
    ensures var w1, v1 := Effect(w, c, r), Effect(v, c, r);
      && (SessionOf(w1, n, s) <==> SessionOf(v1, n, s))
      && (SessionOf(w1, n, s) ==> w1.sessions[s] == v1.sessions[s])
      && (SessionOf(w1, n, s) ==> (s in w1.created <==> s in v1.created) && (s in w1.unrevoked <==> s in v1.unrevoked))
  {
    hide Structured; hide Legal; hide UserOf; hide UsersAfter; hide RecordsAfter;
    assert c.CreateSession? ==> UserOf(v, n, c.user);
    assert c.RegenerateSession? || c.RevokeSession? ==> SessionOf(v, n, c.session);
    SessionAfter(w, n, c, r, s);
    SessionAfter(v, n, c, r, s);
    assert SessionOf(w, n, s) <==> SessionOf(v, n, s);
  }

  lemma MirrorStored(w: World, v: World, c: Call, r: Reply, n: string)
    requires Find(w.records, n) == Find(v.records, n) && Shown(w.profiles, n) == Shown(v.profiles, n)
    ensures Find(Effect(w, c, r).records, n) == Find(Effect(v, c, r).records, n)
    ensures Shown(Effect(w, c, r).profiles, n) == Shown(Effect(v, c, r).profiles, n)
  {
    hide UsersAfter; hide SessionsAfter;
  }

  lemma MirrorGrowth(w: World, v: World, c: Call, r: Reply)
    requires v.tokens.Keys <= w.tokens.Keys && v.clock <= w.clock && v.revision <= w.revision && v.checks == w.checks
    requires v.users.Keys <= w.users.Keys && v.sessions.Keys <= w.sessions.Keys
    ensures var w1, v1 := Effect(w, c, r), Effect(v, c, r);
      && v1.tokens.Keys <= w1.tokens.Keys && v1.clock <= w1.clock && v1.revision <= w1.revision
      && v1.checks == w1.checks
      && v1.users.Keys <= w1.users.Keys && v1.sessions.Keys <= w1.sessions.Keys
  {
    hide RecordsAfter;
  }

  lemma MirrorOwnStep(w: World, v: World, sec: Section, c: Call, r: Reply)
    requires Mirrors(w, v, sec.agent) && Owned(w, sec) && Structured(w) && Structured(v)
    requires Permits(sec, c) && Legal(w, c, r)
    ensures Legal(v, c, r) && Mirrors(Effect(w, c, r), Effect(v, c, r), sec.agent)
  {
    hide Structured; hide Legal; hide Effect;
    MirrorLegal(w, v, sec, c, r);
    assert c.DeactivateUser? ==> UserOf(w, sec.agent, c.user) && UserOf(v, sec.agent, c.user);
    forall u { MirrorUser(w, v, sec.agent, c, r, u); }
    assert c.CreateSession? ==> UserOf(w, sec.agent, c.user);
    assert c.RegenerateSession? || c.RevokeSession? ==> SessionOf(w, sec.agent, c.session);
    forall s { MirrorSession(w, v, sec.agent, c, r, s); }
    MirrorStored(w, v, c, r, sec.agent);
    MirrorGrowth(w, v, c, r);
  }

  lemma WorldGrows(w: World, c: Call, r: Reply)
    requires Legal(w, c, r)
    ensures var w1 := Effect(w, c, r);
      && w.tokens.Keys <= w1.tokens.Keys && w.clock <= w1.clock && w.revision <= w1.revision && w.checks == w1.checks
      && w.users.Keys <= w1.users.Keys && w.sessions.Keys <= w1.sessions.Keys
  {
  }

  lemma MirrorOtherStep(w: World, v: World, sec: Section, c: Call, r: Reply, n: string)
    requires Mirrors(w, v, n) && Owned(w, sec) && Structured(w) && n != sec.agent
    requires Permits(sec, c) && Legal(w, c, r)
    ensures Mirrors(Effect(w, c, r), v, n)
  {
    hide Structured; hide Owned; hide SameAgent; hide Effect; hide Legal; hide Permits;
    StepIsLocal(w, sec, c, r, n);
    SameAgentVia(w, Effect(w, c, r), v, n);
    WorldGrows(w, c, r);
  }

  /** The lock map shows whose turn it is. */
  lemma {:induction false} LockShowsTurn(ms: seq<Machine>, ls: seq<Label>, k: nat, n: string)
    requires IsRun(ms, ls) && k < |ms|
    ensures Turn(ls[..k], n) == if n in ms[k].locks then ms[k].locks[n] else None
  {
    if k > 0 {
      LockShowsTurn(ms, ls, k - 1, n);
      assert ls[..k][..k - 1] == ls[..k - 1];
      assert Enabled(ms[k - 1], ls[k - 1]) && ms[k] == After(ms[k - 1], ls[k - 1]);
    }
  }

  /** The operations of an agent take turns: a thread locks only when it is nobody's turn,
      and calls or unlocks only in its own. */
  lemma OperationsTakeTurns(ms: seq<Machine>, ls: seq<Label>, k: nat)
    requires IsRun(ms, ls) && k < |ls|
    ensures ls[k].Lock? ==> Turn(ls[..k], ls[k].n) == None
    ensures ls[k].Step? || ls[k].Unlock? ==> Turn(ls[..k], ls[k].n) == Some(ls[k].t)
  {
    hide Sound;
    LockShowsTurn(ms, ls, k, ls[k].n);
    assert Enabled(ms[k], ls[k]);
    if ls[k].Step? || ls[k].Unlock? {
      RunsStaySound(ms, ls, k);
      RunnerHolds(ms[k], ls[k].t);
    }
  }

  lemma RunnerHolds(m: Machine, t: nat)
    requires Sound(m) && t in m.threads && m.threads[t].Running?
    ensures SectionHeld(m, t) && Owned(m.w, m.threads[t].section)
  {
    assert SectionHeld(m, t) && SectionSound(m.w, m.threads[t].section);
  }

  lemma MirrorStep(m: Machine, l: Label, v: World, n: string)
    requires Sound(m) && Enabled(m, l) && Mirrors(m.w, v, n) && Structured(v)
    ensures l.Step? && l.n == n ==> Legal(v, l.c, l.r)
    ensures var v1 := if l.Step? && l.n == n then Effect(v, l.c, l.r) else v;
      Mirrors(After(m, l).w, v1, n) && Structured(v1)
  {
    if l.Step? {
      var sec := m.threads[l.t].section;
      RunnerHolds(m, l.t);
      hide Structured; hide Mirrors; hide Owned; hide Effect; hide Legal; hide Permits; hide Sound;
      assert Structured(m.w) by { SoundIsStructured(m); }
      if l.n == n {
        assert SameAgent(m.w, v, n) by { MirrorsIsSame(m.w, v, n); }
        OthersKeepOwnership(m.w, v, sec);
        MirrorOwnStep(m.w, v, sec, l.c, l.r);
        StepKeepsStructure(v, sec, l.c, l.r);
      } else {
        MirrorOtherStep(m.w, v, sec, l.c, l.r, n);
      }
    }
  }

  lemma SoundIsStructured(m: Machine)
    requires Sound(m)
    ensures Structured(m.w)
  {
  }

  lemma MirrorsIsSame(w: World, v: World, n: string)
    requires Mirrors(w, v, n)
    ensures SameAgent(w, v, n)
  {
  }

  lemma MirrorsItself(w: World, n: string)
    ensures Mirrors(w, w, n)
  {
  }

  /** Replaying the calls of one agent alone reproduces its user, sessions and record. */
  lemma {:induction false} ReplayAgrees(ms: seq<Machine>, ls: seq<Label>, k: nat, n: string)
    requires IsRun(ms, ls) && k < |ms|
    ensures Mirrors(ms[k].w, Solo(ms[0].w, ls[..k], n), n) && Structured(Solo(ms[0].w, ls[..k], n))
  {
    hide Structured; hide Mirrors; hide Sound; hide Effect; hide Enabled; hide After; hide Legal;
    if k == 0 {
      MirrorsItself(ms[0].w, n);
    } else {
      ReplayAgrees(ms, ls, k - 1, n);
      RunsStaySound(ms, ls, k - 1);
      assert ls[..k][..k - 1] == ls[..k - 1];
      MirrorStep(ms[k - 1], ls[k - 1], Solo(ms[0].w, ls[..k - 1], n), n);
    }
  }

  /** Each call of the agent is legal in the replay, with the reply it got in the crowd. */
  lemma ReplayIsLegal(ms: seq<Machine>, ls: seq<Label>, k: nat)
    requires IsRun(ms, ls) && k < |ls| && ls[k].Step?
    ensures Legal(Solo(ms[0].w, ls[..k], ls[k].n), ls[k].c, ls[k].r)
  {
    ReplayAgrees(ms, ls, k, ls[k].n);
    RunsStaySound(ms, ls, k);
    hide Structured; hide Mirrors; hide Sound; hide Effect; hide Legal;
    MirrorStep(ms[k], ls[k], Solo(ms[0].w, ls[..k], ls[k].n), ls[k].n);
  }
}
