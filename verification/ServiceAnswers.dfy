/** Why the operator may see the agent service as `Cluster.Serve` does, and what it refuses. */
module ServiceAnswers {
  import opened Text
  import opened Records
  import opened Stores
  import opened Sections
  import opened Locality
  import opened History
  import opened Service
  import opened ServiceRuns
  import Cl = Cluster

  /** The operator's cluster has the records, tokens and clock of the service's world. */
  predicate Shares(s: Cl.State, w: World) {
    s.records == w.records && s.tokens == w.tokens && s.clock == w.clock
  }

  /** Every operation of the service is an answer that the cluster allows. */
  lemma AnswersOfPerformed(w0: World, w1: World, e: Event, s: Cl.State, t: Cl.State)
    requires Performed(w0, w1, e) && Structured(w1) && Shares(s, w0) && Shares(t, w1)
    requires Cl.TurnsDown(s, e.kind, e.name) ==> !e.ok
    ensures Cl.Answers(s, t, e.kind, e.name, e.ok)
  {
    forall m | m in w1.records
      ensures w1.records[m].generation >= 1 && w1.records[m].userId != ""
      ensures w1.records[m].status.Active? ==> w1.records[m].token != ""
    {
      assert RecordFits(w1, m, w1.records[m]);
    }
  }

  /** Create: what the service refuses is exactly what it does not accept. */
  method CreateAnswers(svc: Service, n: string, displayName: string, s: Cl.State) returns (ok: bool, t: Cl.State)
    requires Orderly(svc.out.w) && Shares(s, svc.out.w)
    requires (Creates, n) in s.refuses <==> !svc.CreateAccepts(svc.out.w, n, displayName)
    modifies svc.out
    ensures Orderly(svc.out.w) && Shares(t, svc.out.w) && Cl.Answers(s, t, Creates, n, ok)
    ensures !ok && svc.out.w.faults == old(svc.out.w.faults) ==> (Creates, n) in s.refuses
  {
    hide Structured; hide Contained; hide SameAgent; hide OnlyAgent; hide Retired; hide EventStep; hide Dates;
    hide CreateDone; hide CreateUndone; hide Owned; hide Creatable; hide TrimSpace; hide Cl.Answers;
    assert svc.out.Idle();
    svc.out.Begin(n);
    var res := svc.Create(n, displayName);
    svc.out.EndsIdle();
    ok := res.Succeeded?;
    ghost var e := Event(Creates, n, ok);
    StaysOrderly(old(svc.out.w), svc.out.w, e);
    t := s.(records := svc.out.w.records, tokens := svc.out.w.tokens, clock := svc.out.w.clock);
    AnswersOfPerformed(old(svc.out.w), svc.out.w, e, s, t);
  }

  /** Rotate: what the service refuses by itself is exactly `RotateRefuses`; beyond that MAS
      decides about users that are deactivated or locked. */
  method RotateAnswers(svc: Service, n: string, s: Cl.State) returns (ok: bool, t: Cl.State)
    requires Orderly(svc.out.w) && Shares(s, svc.out.w)
    requires (Rotates, n) in s.refuses <==> svc.RotateRefuses(svc.out.w, n)
    modifies svc.out
    ensures Orderly(svc.out.w) && Shares(t, svc.out.w) && Cl.Answers(s, t, Rotates, n, ok)
    ensures !ok && svc.out.w.faults == old(svc.out.w.faults) ==>
      || (Rotates, n) in s.refuses
      || (n in s.records && !Usable(old(svc.out.w), s.records[n].userId))
  {
    hide Structured; hide Contained; hide SameAgent; hide OnlyAgent; hide Retired; hide EventStep; hide Dates;
    hide RotateDone; hide RotateUndone; hide RotateSafe; hide Owned; hide Startable; hide Cl.Answers;
    assert svc.out.Idle();
    svc.out.Begin(n);
    var res := svc.Rotate(n);
    svc.out.EndsIdle();
    ok := res.Succeeded?;
    ghost var e := Event(Rotates, n, ok);
    StaysOrderly(old(svc.out.w), svc.out.w, e);
    t := s.(records := svc.out.w.records, tokens := svc.out.w.tokens, clock := svc.out.w.clock);
    AnswersOfPerformed(old(svc.out.w), svc.out.w, e, s, t);
  }

  /** Deactivate is never refused: it fails only for want of a record, or after a fault. */
  method DeactivateAnswers(svc: Service, n: string, s: Cl.State) returns (ok: bool, t: Cl.State)
    requires Orderly(svc.out.w) && Shares(s, svc.out.w)
    modifies svc.out
    ensures Orderly(svc.out.w) && Shares(t, svc.out.w) && Cl.Answers(s, t, Deactivates, n, ok)
    ensures ok <==> n in s.records && svc.out.w.faults == old(svc.out.w.faults)
  {
    hide Structured; hide Contained; hide SameAgent; hide OnlyAgent; hide Retired; hide EventStep; hide Dates;
    hide StoredCleared; hide Owned; hide LiveSessions; hide Cl.Answers;
    assert svc.out.Idle();
    svc.out.Begin(n);
    var res := svc.Deactivate(n);
    svc.out.EndsIdle();
    ok := res.Succeeded?;
    ghost var e := Event(Deactivates, n, ok);
    StaysOrderly(old(svc.out.w), svc.out.w, e);
    t := s.(records := svc.out.w.records, tokens := svc.out.w.tokens, clock := svc.out.w.clock);
    AnswersOfPerformed(old(svc.out.w), svc.out.w, e, s, t);
  }
}
