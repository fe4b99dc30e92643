/** Any sequence of lifecycle operations on any agents, one after the other. */
module ServiceRuns {
  import opened Text
  import opened Records
  import opened Stores
  import opened Sections
  import opened Locality
  import opened Clients
  import opened History
  import opened Service

  datatype Operation =
    | Create(name: string, displayName: string)
    | SetAvatar(name: string)
    | Rotate(name: string)
    | Recover(name: string)
    | Revoke(name: string)
    | Deactivate(name: string)
    | Remove(name: string)

  function KindOf(op: Operation): Kind {
    match op
    case Create(_, _) => Creates
    case SetAvatar(_) => SetsAvatar
    case Rotate(_) => Rotates
    case Recover(_) => Rotates
    case Revoke(_) => Revokes
    case Deactivate(_) => Deactivates
    case Remove(_) => Removes
  }

  function EventOf(op: Operation, res: Outcome): Event {
    Event(KindOf(op), op.name, res.Succeeded?)
  }

  /** What holds whenever no operation is running: the stores fit together, each live session
      is accounted for, and a deactivated record belongs to a retired user. */
  ghost predicate Orderly(w: World) {
    Structured(w) && forall m :: Contained(w, m, {}) && Retired(w, m)
  }

  /** Deactivate and Remove end the agent: nothing but a fault or a missing record can stop
      them, and they leave no live session and no active user. */
  predicate EndsAgent(w0: World, w1: World, op: Operation, ok: bool) {
    && (w1.faults == w0.faults && op.name in w0.records ==> ok)
    && (ok ==>
          && op.name in w0.records && UserRetired(w1, w0.records[op.name].userId)
          && if op.Remove? then op.name !in w1.records
             else op.name in w1.records && w1.records[op.name].status.Deactivated?)
  }

  ghost predicate Done(w0: World, w1: World, op: Operation, res: Outcome) {
    && Performed(w0, w1, EventOf(op, res))
    && (op.Deactivate? || op.Remove? ==> EndsAgent(w0, w1, op, res.Succeeded?))
  }

  /** `worlds` are the states between the operations. */
  ghost predicate IsServiceRun(worlds: seq<World>, ops: seq<Operation>, outcomes: seq<Outcome>) {
    && |worlds| == |ops| + 1 && |outcomes| == |ops|
    && (forall i | 0 <= i < |worlds| :: Orderly(worlds[i]))
    && forall i | 0 <= i < |ops| :: Done(worlds[i], worlds[i + 1], ops[i], outcomes[i])
  }

  lemma RetiredElsewhere(w: World, v: World, n: string)
    requires SameAgent(w, v, n) && Structured(w) && Retired(w, n)
    ensures Retired(v, n)
  {
    assert Find(w.records, n) == Find(v.records, n);
    if n in v.records && v.records[n].status.Deactivated? {
      var u := v.records[n].userId;
      assert RecordFits(w, n, w.records[n]);
      assert UserOf(w, n, u) && UserOf(v, n, u);
      SameLiveSessions(w, v, n, u);
    }
  }

  lemma StaysOrderly(w: World, v: World, e: Event)
    requires Orderly(w) && Performed(w, v, e) && Structured(v) && forall m :: Contained(v, m, {})
    ensures Orderly(v)
  {
    hide Structured; hide Contained; hide SameAgent; hide Retired; hide EventStep; hide Dates;
    forall m ensures Retired(v, m) {
      if m != e.name { RetiredElsewhere(w, v, m); }
    }
  }

  lemma DeactivatedIsRetired(w: World, v: World, n: string)
    requires Performed(w, v, Event(Deactivates, n, true)) && Retired(w, n)
    ensures n in w.records && n in v.records && v.records[n].status.Deactivated?
    ensures UserRetired(v, w.records[n].userId)
  {
    hide OnlyAgent;
  }

  /** One operation with its entry and exit, on whatever agent. */
  method Perform(s: Service, op: Operation) returns (res: Outcome)
    requires Orderly(s.out.w)
    modifies s.out
    ensures Orderly(s.out.w) && Done(old(s.out.w), s.out.w, op, res)
  {
    hide Structured; hide Contained; hide SameAgent; hide OnlyAgent; hide Retired; hide EventStep; hide Dates;
    hide UserRetired; hide CreateDone; hide CreateUndone; hide RotateDone; hide RotateUndone; hide RotateSafe;
    hide StoredCleared; hide OnlyRecord; hide Owned; hide Startable; hide LiveSessions;
    assert s.out.Idle();
    s.out.Begin(op.name);
    match op {
      case Create(n, displayName) => res := s.Create(n, displayName);
      case SetAvatar(n) =>
        var uploaded;
        res, uploaded := s.SetAvatar(n);
      case Rotate(n) => res := s.Rotate(n);
      case Recover(n) =>
        var device;
        res, device := s.Recover(n);
      case Revoke(n) => res := s.Revoke(n);
      case Deactivate(n) =>
        res := s.Deactivate(n);
        if res.Succeeded? { DeactivatedIsRetired(old(s.out.w), s.out.w, n); }
      case Remove(n) => res := s.Remove(n);
    }
    s.out.EndsIdle();
    StaysOrderly(old(s.out.w), s.out.w, EventOf(op, res));
  }

  /** Whatever operations are called, on whatever agents and with whatever faults. */
  method Run(s: Service, ops: seq<Operation>) returns (outcomes: seq<Outcome>, ghost worlds: seq<World>)
    requires Orderly(s.out.w)
    modifies s.out
    ensures IsServiceRun(worlds, ops, outcomes)
    ensures worlds[0] == old(s.out.w) && worlds[|ops|] == s.out.w
  {
    hide Orderly; hide Done;
    outcomes, worlds := [], [s.out.w];
    for i := 0 to |ops|
      invariant IsServiceRun(worlds, ops[..i], outcomes)
      invariant worlds[0] == old(s.out.w) && worlds[i] == s.out.w
    {
      var res := Perform(s, ops[i]);
      assert ops[..i + 1] == ops[..i] + [ops[i]];
      outcomes, worlds := outcomes + [res], worlds + [s.out.w];
    }
    assert ops[..|ops|] == ops;
  }

  function RecordsOf(worlds: seq<World>): seq<map<string, Record>> {
    seq(|worlds|, i requires 0 <= i < |worlds| => worlds[i].records)
  }

  function EventsOf(ops: seq<Operation>, outcomes: seq<Outcome>): seq<Event>
    requires |ops| == |outcomes|
  {
    seq(|ops|, i requires 0 <= i < |ops| => EventOf(ops[i], outcomes[i]))
  }

  /** In every reachable state a record's generation is one plus its successful Rotates, and
      it has kept its MAS user and creation time. */
  lemma RunCountsRotations(worlds: seq<World>, ops: seq<Operation>, outcomes: seq<Outcome>, j: nat, k: nat, n: string)
    requires IsServiceRun(worlds, ops, outcomes) && worlds[0].records == map[] && j <= k < |worlds|
    requires forall i | j <= i <= k :: n in worlds[i].records
    ensures worlds[k].records[n].generation == 1 + Rotations(EventsOf(ops, outcomes)[..k], n)
    ensures SameIdentity(worlds[j].records[n], worlds[k].records[n])
  {
    hide Orderly; hide Rotations; hide SameIdentity; hide EventStep; hide Dates; hide OnlyAgent; hide Retired;
    var states, events := RecordsOf(worlds), EventsOf(ops, outcomes);
    forall i | 0 <= i < |events| ensures EventStep(states[i], states[i + 1], events[i]) {
      assert Done(worlds[i], worlds[i + 1], ops[i], outcomes[i]);
    }
    GenerationCountsRotations(states, events, k, n);
    forall i | j <= i <= k ensures n in states[i] {
      assert n in worlds[i].records;
    }
    IdentityIsKept(states, events, j, k, n);
  }

  lemma NothingIsOrderly(w: World)
    requires w.users == map[] && w.sessions == map[] && w.records == map[]
    requires w.created == {} && w.unrevoked == {}
    ensures Orderly(w)
  {
  }

  /** A run of a new service, from nothing at all. */
  method RunFromNothing(checks: Checks, deviceScoped: bool, scopeOk: string -> bool, hasProfile: bool,
        hasRecovery: bool, userIdOk: bool, ops: seq<Operation>)
    returns (outcomes: seq<Outcome>, final: World)
    ensures |outcomes| == |ops| && Orderly(final)
    ensures forall n | n in final.records ::
      final.records[n].generation == 1 + Rotations(EventsOf(ops, outcomes), n)
  {
    hide Orderly; hide Done; hide Rotations;
    var w := World(map[], map[], map[], map[], 0, 0, checks, map[], {}, {}, 0, 0);
    NothingIsOrderly(w);
    OrderlyIsIdle(w);
    var out := new Clients(w);
    var s := new Service(out, deviceScoped, scopeOk, hasProfile, hasRecovery, userIdOk);
    ghost var worlds;
    outcomes, worlds := Run(s, ops);
    final := s.out.w;
    forall n | n in final.records
      ensures final.records[n].generation == 1 + Rotations(EventsOf(ops, outcomes), n)
    {
      RunCountsRotations(worlds, ops, outcomes, |ops|, |ops|, n);
      assert EventsOf(ops, outcomes)[..|ops|] == EventsOf(ops, outcomes);
    }
  }

  lemma OrderlyIsIdle(w: World)
    requires Orderly(w)
    ensures Structured(w) && forall m :: Contained(w, m, {})
  {
  }
}
