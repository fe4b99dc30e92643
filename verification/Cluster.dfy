/** The state the operator works on, and the requests it makes: Kubernetes objects, the
    agent service and its records. There is no other writer; any request may fail. */
module Cluster {
  import opened Text
  import opened Records
  import opened History
  import opened Claims

  datatype TokenSecret = TokenSecret(
    owners: set<string>, generation: string, agentLabel: string, data: map<string, string>)

  /** What has been done so far, for the specification. `requested` counts the successful
      Rotates made because the spec asked for one. */
  datatype Work = Work(
    creates: nat, rotates: nat, requested: nat, secretWrites: nat, restarts: nat, finalizers: nat, statusWrites: nat,
    failedStatusWrites: nat)

  /** `deployments` says whether a Deployment has a usable selector. `held` is the first
      moment a Secret was seen to hold the token of a generation, `restarted` the last
      moment the pods of a Deployment were deleted, both counted by `tick`. `clock` is the
      time of day and `tokens` the issue time of each access token. `refuses` are the
      Creates and Rotates that the agent service turns down although nothing fails, say
      because the name has an active MAS user. */
  datatype State = State(
    resources: map<string, Resource>, secrets: map<(string, string), TokenSecret>,
    deployments: map<(string, string), bool>, records: map<string, Record>,
    work: Work, faults: nat, tick: nat, held: map<(string, string, int), nat>, restarted: map<(string, string), nat>,
    clock: int, tokens: map<string, int>, refuses: set<(Kind, string)>)

  datatype Lookup = Found(record: Record) | Missing | Broken

  /** Records are as the backend reads them; moments are not in the future. */
  predicate Sound(s: State) {
    && (forall n | n in s.records ::
          && s.records[n].generation >= 1 && s.records[n].userId != ""
          && (s.records[n].status.Active? ==> s.records[n].token != ""))
    && (forall h | h in s.held :: s.held[h] <= s.tick)
    && (forall d | d in s.restarted :: s.restarted[d] <= s.tick)
    && (forall k | k in s.resources :: Key(s.resources[k]) == k)
  }

  /** History only grows: first moments stay, last moments move on. */
  predicate Grows(s: State, t: State) {
    && (forall h | h in s.held :: h in t.held && t.held[h] == s.held[h])
    && (forall d | d in s.restarted :: d in t.restarted && t.restarted[d] >= s.restarted[d])
    && s.tick <= t.tick && s.faults <= t.faults && s.clock <= t.clock && TokensKept(s.tokens, t.tokens)
    && s.work.failedStatusWrites <= t.work.failedStatusWrites
  }

  lemma GrowsOn(s: State, t: State, u: State)
    requires Grows(s, t) && Grows(t, u)
    ensures Grows(s, u)
  {
  }

  /** The service may answer so, and leave the records, the clock and the tokens of `t`. */
  predicate Answers(s: State, t: State, kind: Kind, n: string, ok: bool) {
    && (forall m | m in t.records ::
          && t.records[m].generation >= 1 && t.records[m].userId != ""
          && (t.records[m].status.Active? ==> t.records[m].token != ""))
    && EventStep(s.records, t.records, Event(kind, n, ok))
    && s.clock <= t.clock && TokensKept(s.tokens, t.tokens)
    && Dated(Find(s.records, n), Find(t.records, n), kind, s.tokens, t.tokens, s.clock, t.clock)
    && (TurnsDown(s, kind, n) ==> !ok)
  }

  /** The service refuses the operation; it has no reason to refuse a Deactivate. */
  predicate TurnsDown(s: State, kind: Kind, n: string) {
    !kind.Deactivates? && (kind, n) in s.refuses
  }

  function LookedUp(s: State, n: string): Lookup {
    if n in s.records then Found(s.records[n]) else Missing
  }

  /** The status is the operator's to write, and the resource is as decodable and as little
      deleted as before; its spec may differ. */
  predicate LeftToPasses(o: Resource, o1: Resource) {
    o1.status == o.status && o1.deleting == o.deleting && Key(o1) == Key(o) && (o1.spec.Some? <==> o.spec.Some?)
  }

  function Failing(s: State, fault: bool): State {
    if fault then s.(faults := s.faults + 1) else s
  }

  class Cluster {
    var s: State
    /** Whether every request to Kubernetes and every read of a record succeeds. */
    const reliable: bool

    constructor (s: State, reliable: bool)
      requires Sound(s)
      ensures this.s == s && this.reliable == reliable
    {
      this.s, this.reliable := s, reliable;
    }

    /** Whether the next request fails. */
    method MayFail() returns (fault: bool)
      ensures reliable ==> !fault
    {
      fault := *;
      if reliable {
        fault := false;
      }
    }

    method GetRecord(n: string) returns (r: Lookup)
      requires Sound(s)
      modifies this
      ensures Sound(s) && Grows(old(s), s) && s == Failing(old(s), r.Broken?)
      ensures r.Broken? || r == LookedUp(s, n)
      ensures reliable ==> !r.Broken?
    {
      var fault := MayFail();
      s := Failing(s, fault);
      r := if fault then Broken else LookedUp(s, n);
    }

    /** Anything others do that leaves the status of resource `k` alone, and whether it can be
        reconciled. */
    method Others(k: string)
      requires Sound(s) && k in s.resources
      modifies this
      ensures Sound(s) && Grows(old(s), s) && k in s.resources
      ensures LeftToPasses(old(s).resources[k], s.resources[k])
    {
      var next: State := *;
      if Sound(next) && Grows(s, next) && k in next.resources && LeftToPasses(s.resources[k], next.resources[k]) {
        s := next;
      }
    }

    method ReadClock() returns (now: int)
      requires Sound(s)
      modifies this
      ensures Sound(s) && Grows(old(s), s) && s == old(s).(clock := now) && old(s).clock <= now
    {
      now := *;
      if now < s.clock {
        now := s.clock;
      }
      Tick(now);
    }

    /** The clock says `now`. */
    method Tick(now: int)
      requires Sound(s) && s.clock <= now
      modifies this
      ensures Sound(s) && Grows(old(s), s) && s == old(s).(clock := now)
    {
      s := s.(clock := now);
    }

    /** One operation of the agent service, as its history contract describes it. `missing` is
        the service's not-found error; every other error is a refusal or counts as a fault. */
    method Serve(kind: Kind, n: string, asked: bool) returns (ok: bool, missing: bool)
      requires Sound(s) && (kind.Creates? || kind.Rotates? || kind.Deactivates?)
      modifies this
      ensures Sound(s) && Grows(old(s), s)
      ensures EventStep(old(s).records, s.records, Event(kind, n, ok))
      ensures Dated(Find(old(s).records, n), Find(s.records, n), kind, old(s).tokens, s.tokens, old(s).clock, s.clock)
      ensures s == old(s).(records := s.records, work := s.work, faults := s.faults, clock := s.clock,
        tokens := s.tokens, refuses := s.refuses)
      ensures missing ==> !ok && n !in old(s).records && !kind.Creates?
      ensures TurnsDown(old(s), kind, n) ==> !ok
      ensures !ok && !missing && !TurnsDown(old(s), kind, n) ==> s.faults > old(s).faults
      ensures s.work == if !ok then old(s).work
        else if kind.Creates? then old(s).work.(creates := old(s).work.creates + 1)
        else if kind.Rotates? then old(s).work.(rotates := old(s).work.rotates + 1,
                                                requested := old(s).work.requested + if asked then 1 else 0)
        else old(s).work
    {
      missing := *;
      if missing {
        missing := n !in s.records && !kind.Creates?;
        s := Failing(s, !missing);
        return false, missing;
      }
      var next: State := *;
      var answer: bool := *;
      if Answers(s, next, kind, n, answer) {
        ok := answer;
        var refused := TurnsDown(s, kind, n);
        s := Failing(s, !ok && !refused).(records := next.records, clock := next.clock, tokens := next.tokens,
                                          refuses := next.refuses);
        if ok && kind.Creates? {
          s := s.(work := s.work.(creates := s.work.creates + 1));
        }
        if ok && kind.Rotates? {
          s := s.(work := s.work.(rotates := s.work.rotates + 1,
            requested := s.work.requested + if asked then 1 else 0));
        }
      } else {
        ok := false;
        s := Failing(s, true);
      }
    }

    /** Replace the finalizers of a resource. */
    method UpdateResource(k: string, finalizers: seq<string>) returns (ok: bool)
      requires Sound(s) && k in s.resources
      modifies this
      ensures Sound(s) && Grows(old(s), s)
      ensures s == if !ok then Failing(old(s), true) else old(s).(
        resources := old(s).resources[k := old(s).resources[k].(finalizers := finalizers)],
        work := old(s).work.(finalizers := old(s).work.finalizers + 1))
      ensures reliable ==> ok
    {
      var fault := MayFail();
      ok := !fault;
      if ok {
        s := s.(resources := s.resources[k := s.resources[k].(finalizers := finalizers)],
                work := s.work.(finalizers := s.work.finalizers + 1));
      } else {
        s := Failing(s, true);
      }
    }

    method UpdateStatus(k: string, status: AgentStatus) returns (ok: bool)
      requires Sound(s) && k in s.resources
      modifies this
      ensures Sound(s) && Grows(old(s), s)
      ensures s ==
        if !ok then Failing(old(s), true).(
          work := old(s).work.(failedStatusWrites := old(s).work.failedStatusWrites + 1))
        else old(s).(
          resources := old(s).resources[k := old(s).resources[k].(status := Some(status))],
          work := old(s).work.(statusWrites := old(s).work.statusWrites + 1))
      ensures reliable ==> ok
    {
      var fault := MayFail();
      ok := !fault;
      if ok {
        s := s.(resources := s.resources[k := s.resources[k].(status := Some(status))],
                work := s.work.(statusWrites := s.work.statusWrites + 1));
      } else {
        s := Failing(s, true).(work := s.work.(failedStatusWrites := s.work.failedStatusWrites + 1));
      }
    }

    method ReadSecret(at: (string, string)) returns (ok: bool, secret: Option<TokenSecret>)
      requires Sound(s)
      modifies this
      ensures Sound(s) && Grows(old(s), s) && s == Failing(old(s), !ok)
      ensures ok ==> secret == if at in s.secrets then Some(s.secrets[at]) else None
      ensures reliable ==> ok
    {
      var fault := MayFail();
      ok := !fault;
      s := Failing(s, !ok);
      secret := if at in s.secrets then Some(s.secrets[at]) else None;
    }

    method PutSecret(at: (string, string), secret: TokenSecret) returns (ok: bool)
      requires Sound(s)
      modifies this
      ensures Sound(s) && Grows(old(s), s)
      ensures s == if !ok then Failing(old(s), true) else old(s).(
        secrets := old(s).secrets[at := secret], work := old(s).work.(secretWrites := old(s).work.secretWrites + 1))
      ensures reliable ==> ok
    {
      var fault := MayFail();
      ok := !fault;
      if ok {
        s := s.(secrets := s.secrets[at := secret], work := s.work.(secretWrites := s.work.secretWrites + 1));
      } else {
        s := Failing(s, true);
      }
    }

    /** Note that the Secret holds the token of the generation, unless that is known. */
    method Note(at: (string, string), generation: int)
      requires Sound(s)
      modifies this
      ensures Sound(s) && Grows(old(s), s)
      ensures (at.0, at.1, generation) in s.held
      ensures s == if (at.0, at.1, generation) in old(s).held then old(s)
        else old(s).(tick := old(s).tick + 1, held := old(s).held[(at.0, at.1, generation) := old(s).tick + 1])
    {
      if (at.0, at.1, generation) !in s.held {
        s := s.(tick := s.tick + 1, held := s.held[(at.0, at.1, generation) := s.tick + 1]);
      }
    }

    /** Delete the pods of a Deployment that exists and has a usable selector. */
    method RestartDeployment(d: (string, string)) returns (ok: bool)
      requires Sound(s)
      modifies this
      ensures Sound(s) && Grows(old(s), s)
      ensures ok && d !in s.deployments ==> s == old(s)
      ensures ok && d in s.deployments ==> s == old(s).(
        tick := old(s).tick + 1, restarted := old(s).restarted[d := old(s).tick + 1],
        work := old(s).work.(restarts := old(s).work.restarts + 1))
      ensures !ok ==> s == old(s).(faults := s.faults)
      ensures !ok ==> s.faults > old(s).faults || (d in s.deployments && !s.deployments[d])
      ensures ok && d in s.deployments ==> s.deployments[d]
      ensures reliable ==> s.faults == old(s).faults
    {
      var fault := MayFail();
      if fault {
        s := Failing(s, true);
        return false;
      }
      if d !in s.deployments {
        return true;
      }
      if !s.deployments[d] {
        return false;
      }
      fault := MayFail();
      if fault {
        s := Failing(s, true);
        return false;
      }
      s := s.(tick := s.tick + 1, restarted := s.restarted[d := s.tick + 1],
        work := s.work.(restarts := s.work.restarts + 1));
      ok := true;
    }
  }
}
