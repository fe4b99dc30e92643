/** Lifecycle operations of many threads, interleaved call by call under the lock map of
    the service: one mutex per agent name, created on first use and never removed. */
module Locks {
  import opened Text
  import opened Records
  import opened Stores
  import opened Sections
  import opened Locality

  datatype Thread = Waiting(agent: string) | Running(section: Section)

  /** A thread that is in no operation has no entry in `threads`. */
  datatype Machine = Machine(w: World, locks: map<string, Option<nat>>, threads: map<nat, Thread>)

  datatype Label =
    | Enter(t: nat, n: string)
    | Lock(t: nat, n: string)
    | Step(t: nat, n: string, c: Call, r: Reply)
    | Unlock(t: nat, n: string)

  predicate Runs(m: Machine, t: nat, n: string) {
    t in m.threads && m.threads[t].Running? && m.threads[t].section.agent == n
  }

  predicate Enabled(m: Machine, l: Label) {
    match l
    case Enter(t, n) => t !in m.threads
    case Lock(t, n) => t in m.threads && m.threads[t] == Waiting(n) && n in m.locks && m.locks[n].None?
    case Step(t, n, c, r) => Runs(m, t, n) && Permits(m.threads[t].section, c) && Legal(m.w, c, r)
    case Unlock(t, n) => Runs(m, t, n) && m.threads[t].section.loose == {}
  }

  function After(m: Machine, l: Label): Machine
    requires Enabled(m, l)
  {
    match l
    case Enter(t, n) =>
      m.(locks := if n in m.locks then m.locks else m.locks[n := None], threads := m.threads[t := Waiting(n)])
    case Lock(t, n) => m.(locks := m.locks[n := Some(t)], threads := m.threads[t := Running(Fresh(n))])
    case Step(t, n, c, r) =>
      m.(w := Effect(m.w, c, r), threads := m.threads[t := Running(Advance(m.threads[t].section, c, r))])
    case Unlock(t, n) => m.(locks := m.locks[n := None], threads := m.threads - {t})
  }

  predicate Held(m: Machine, n: string) {
    n in m.locks && m.locks[n].Some?
  }

  predicate SectionHeld(m: Machine, t: nat)
    requires t in m.threads && m.threads[t].Running?
  {
    m.threads[t].section.agent in m.locks && m.locks[m.threads[t].section.agent] == Some(t)
  }

  ghost predicate SectionSound(w: World, sec: Section) {
    Owned(w, sec) && Contained(w, sec.agent, sec.loose)
  }

  ghost predicate Sound(m: Machine) {
    && Structured(m.w)
    && (forall t | t in m.threads && m.threads[t].Running? ::
          SectionHeld(m, t) && SectionSound(m.w, m.threads[t].section))
    && (forall n | Held(m, n) :: Runs(m, m.locks[n].value, n))
    && (forall n | !Held(m, n) :: Contained(m.w, n, {}))
  }

  /** Nothing is running and no session created by the manager is unaccounted for. */
  ghost predicate Initial(m: Machine) {
    m.threads == map[] && m.locks == map[] && Structured(m.w) && forall n :: Contained(m.w, n, {})
  }

  ghost predicate IsRun(ms: seq<Machine>, ls: seq<Label>) {
    && |ms| == |ls| + 1 && Initial(ms[0])
    && forall i | 0 <= i < |ls| :: Enabled(ms[i], ls[i]) && ms[i + 1] == After(ms[i], ls[i])
  }

  lemma CallKeepsSound(m: Machine, t: nat, n: string, c: Call, r: Reply)
    requires Sound(m) && Enabled(m, Step(t, n, c, r))
    ensures Sound(After(m, Step(t, n, c, r)))
  {
    hide Structured; hide Owned; hide Contained; hide Effect; hide Advance; hide SameAgent;
    var sec := m.threads[t].section;
    var m1 := After(m, Step(t, n, c, r));
    assert SectionHeld(m, t) && SectionSound(m.w, sec);
    StepKeepsStructure(m.w, sec, c, r);
    StepKeepsOwnership(m.w, sec, c, r);
    StepKeepsContainment(m.w, sec, c, r);
    forall t1 | t1 in m1.threads && m1.threads[t1].Running?
      ensures SectionHeld(m1, t1) && SectionSound(m1.w, m1.threads[t1].section)
    {
      if t1 != t {
        var other := m.threads[t1].section;
        assert SectionHeld(m, t1) && SectionSound(m.w, other);
        StepIsLocal(m.w, sec, c, r, other.agent);
        OthersKeepOwnership(m.w, m1.w, other);
        OthersKeepContainment(m.w, m1.w, other.agent, other.loose);
      }
    }
    forall a | !Held(m1, a) ensures Contained(m1.w, a, {}) {
      assert !Held(m, a);
      StepIsLocal(m.w, sec, c, r, a);
      OthersKeepContainment(m.w, m1.w, a, {});
    }
    forall a | Held(m1, a) ensures Runs(m1, m1.locks[a].value, a) {
      assert Held(m, a);
    }
  }

  lemma StepKeepsSound(m: Machine, l: Label)
    requires Sound(m) && Enabled(m, l)
    ensures Sound(After(m, l))
  {
    var m1 := After(m, l);
    match l
    case Step(t, n, c, r) => CallKeepsSound(m, t, n, c, r);
    case Unlock(t, n) =>
      assert SectionHeld(m, t) && SectionSound(m.w, m.threads[t].section);
      forall a | Held(m1, a) ensures Runs(m1, m1.locks[a].value, a) {
        assert Held(m, a);
      }
      forall t1 | t1 in m1.threads && m1.threads[t1].Running? ensures SectionHeld(m1, t1) {
        assert SectionHeld(m, t1);
      }
    case Lock(t, n) =>
      assert !Held(m, n);
      forall a | Held(m1, a) ensures Runs(m1, m1.locks[a].value, a) {
        assert a != n ==> Held(m, a);
      }
      forall t1 | t1 in m1.threads && m1.threads[t1].Running? ensures SectionHeld(m1, t1) {
        assert t1 != t ==> SectionHeld(m, t1);
      }
    case Enter(t, n) =>
      forall a | Held(m1, a) ensures Runs(m1, m1.locks[a].value, a) {
        assert Held(m, a);
      }
      forall t1 | t1 in m1.threads && m1.threads[t1].Running? ensures SectionHeld(m1, t1) {
        assert SectionHeld(m, t1);
      }
  }

  /** Safety of every interleaving: every state is sound. */
  lemma {:induction false} RunsStaySound(ms: seq<Machine>, ls: seq<Label>, k: nat)
    requires IsRun(ms, ls) && k < |ms|
    ensures Sound(ms[k])
  {
    if k > 0 {
      RunsStaySound(ms, ls, k - 1);
      StepKeepsSound(ms[k - 1], ls[k - 1]);
    }
  }

  /** At most one operation per agent is in its critical section. */
  lemma MutualExclusion(ms: seq<Machine>, ls: seq<Label>, k: nat, n: string, t1: nat, t2: nat)
    requires IsRun(ms, ls) && k < |ms| && Runs(ms[k], t1, n) && Runs(ms[k], t2, n)
    ensures t1 == t2
  {
    RunsStaySound(ms, ls, k);
    assert SectionHeld(ms[k], t1) && SectionHeld(ms[k], t2);
  }

  /** The version an operation loaded is still the stored one when it writes. */
  lemma NoConflict(ms: seq<Machine>, ls: seq<Label>, k: nat)
    requires IsRun(ms, ls) && k < |ls| && ls[k].Step? && ls[k].c.UpdateRecord?
    ensures ls[k].n in ms[k].w.records && ls[k].c.record.version == ms[k].w.records[ls[k].n].version
    ensures !ls[k].r.Conflict? && !ls[k].r.NotFound?
  {
    RunsStaySound(ms, ls, k);
    var sec := ms[k].threads[ls[k].t].section;
    assert SectionSound(ms[k].w, sec);
    assert RecordFits(ms[k].w, sec.agent, ms[k].w.records[sec.agent]);
  }

  /** Credential containment in every interleaving, with arbitrary clean faults: while no
      operation holds the agent's lock, each live session the manager created for it is
      the stored one or had a failed revoke call. */
  lemma CredentialsAreContained(ms: seq<Machine>, ls: seq<Label>, k: nat, n: string, s: string)
    requires IsRun(ms, ls) && k < |ms| && !Held(ms[k], n)
    requires s in ms[k].w.created && SessionOf(ms[k].w, n, s) && ms[k].w.sessions[s].live
    ensures s in ms[k].w.unrevoked || (n in ms[k].w.records && ms[k].w.records[n].sessionId == s)
  {
    RunsStaySound(ms, ls, k);
  }
}
